/** Decimal rendering, as `std::to_string` does it. */
module Decimals {

  function Digit(d: nat): char
    requires d < 10
  {
    '0' + d as char
  }

  function Digits(n: nat): string {
    if n < 10 then [Digit(n)] else Digits(n / 10) + [Digit(n % 10)]
  }

  function Text(n: int): string {
    if n < 0 then "-" + Digits(-n) else Digits(n)
  }

  function Value(s: string): int {
    if s == "" then 0 else 10 * Value(s[..|s| - 1]) + s[|s| - 1] as int - '0' as int
  }

  /** Reads a number with its sign. */
  function Number(s: string): int {
    if s != "" && s[0] == '-' then -Value(s[1..]) else Value(s)
  }

  /** Decimal rendering loses nothing. */
  lemma {:induction false} DigitsRoundTrip(n: nat)
    ensures Digits(n) != "" && Value(Digits(n)) == n
  {
    if n < 10 {
      assert Digits(n)[..0] == "";
    } else {
      DigitsRoundTrip(n / 10);
      assert Digits(n)[..|Digits(n)| - 1] == Digits(n / 10);
    }
  }

  /** It uses the ten digits, and no leading zero. */
  lemma {:induction false} DigitsArePlain(n: nat)
    ensures forall i | 0 <= i < |Digits(n)| :: '0' <= Digits(n)[i] <= '9'
    ensures Digits(n) != "" && (Digits(n)[0] == '0' ==> n == 0 && |Digits(n)| == 1)
  {
    if n >= 10 {
      DigitsArePlain(n / 10);
    }
  }

  /** With the sign, too: a minus in front of the digits, for negative numbers alone. */
  lemma TextRoundTrip(n: int)
    ensures Number(Text(n)) == n && Text(n) != "" && (Text(n)[0] == '-' <==> n < 0)
    ensures forall i | (if n < 0 then 1 else 0) <= i < |Text(n)| :: '0' <= Text(n)[i] <= '9'
  {
    var size := if n < 0 then -n else n;
    DigitsRoundTrip(size);
    DigitsArePlain(size);
    assert n < 0 ==> Text(n)[1..] == Digits(size);
  }
}

/** Decimal text of integers, as a stream or to_string prints it. */
module Decimal {

  function DigitChar(d: nat): char
    requires d < 10
  {
    ('0' as int + d) as char
  }

  function NatText(n: nat): (t: string)
    ensures t != []
  {
    if n < 10 then [DigitChar(n)] else NatText(n / 10) + [DigitChar(n % 10)]
  }

  function IntText(n: int): (t: string)
    ensures t != []
  {
    if n < 0 then "-" + NatText(-n) else NatText(n)
  }
}

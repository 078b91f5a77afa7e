/** Go's 32-bit integers. */
module Ints {
  const MAX_INT32 := 0x7fff_ffff
  const MIN_INT32 := -0x8000_0000

  type int32 = n: int | MIN_INT32 <= n <= MAX_INT32

  /** Conversion to int32, and the wrap-around of int32 arithmetic. */
  function ToInt32(n: int): int32 {
    (n + 0x8000_0000) % 0x1_0000_0000 - 0x8000_0000
  }

  /** It is the one int32 that differs from the number by a multiple of 2^32. */
  lemma ToInt32Meaning(n: int, m: int32)
    ensures ToInt32(n) == m <==> (n - m) % 0x1_0000_0000 == 0
  {
    assert (n - ToInt32(n)) % 0x1_0000_0000 == 0;
  }

  function Digit(n: nat): char
    requires n < 10
  {
    ('0' as int + n) as char
  }

  function Decimal(n: nat): (r: string)
    ensures r != ""
  {
    if n < 10 then [Digit(n)] else Decimal(n / 10) + [Digit(n % 10)]
  }

  /** strconv.Itoa */
  function Itoa(n: int): string {
    if n < 0 then "-" + Decimal(-n) else Decimal(n)
  }

  /** The number that digits spell. */
  function Spelled(s: string): int {
    if s == "" then 0 else Spelled(s[..|s| - 1]) * 10 + (s[|s| - 1] as int - '0' as int)
  }

  function Atoi(s: string): int {
    if s != "" && s[0] == '-' then -Spelled(s[1..]) else Spelled(s)
  }

  lemma {:induction false} DecimalSpells(n: nat)
    ensures Spelled(Decimal(n)) == n && '0' <= Decimal(n)[0] <= '9'
  {
    if n >= 10 {
      DecimalSpells(n / 10);
      assert Decimal(n)[..|Decimal(n)| - 1] == Decimal(n / 10);
    } else {
      assert Decimal(n)[..0] == "";
    }
  }

  /** Numbers written in decimal read back. */
  lemma ItoaReadsBack(n: int)
    ensures Atoi(Itoa(n)) == n
  {
    DecimalSpells(if n < 0 then -n else n);
    assert n < 0 ==> Itoa(n)[1..] == Decimal(-n);
  }
}

/** Connection names (src/TcpServer.cpp): a fixed prefix and the decimal digits of a counter. */
module Naming {
  const DIGITS: string := "0123456789"

  /** std::to_string of a non-negative number. */
  function Decimal(n: nat): (s: string)
    ensures s != []
  {
    if n < 10 then [DIGITS[n]] else Decimal(n / 10) + [DIGITS[n % 10]]
  }

  function DigitValue(c: char): nat {
    if '0' <= c <= '9' then (c as int) - ('0' as int) else 0
  }

  function Value(s: string): nat {
    if s == [] then 0 else 10 * Value(s[..|s| - 1]) + DigitValue(s[|s| - 1])
  }

  lemma {:induction false} ValueOfDecimal(n: nat)
    ensures Value(Decimal(n)) == n
  {
    if n >= 10 {
      ValueOfDecimal(n / 10);
      assert Decimal(n)[..|Decimal(n)| - 1] == Decimal(n / 10);
    } else {
      assert Decimal(n)[..0] == [];
    }
  }

  /** connName: server name, listening address and counter. */
  function ConnName(name: string, ipPort: string, id: nat): string {
    name + "-" + ipPort + "#" + Decimal(id)
  }

  /** One server never gives two connections the same name. */
  lemma NamesAreDistinct(name: string, ipPort: string, a: nat, b: nat)
    ensures ConnName(name, ipPort, a) == ConnName(name, ipPort, b) <==> a == b
  {
    if ConnName(name, ipPort, a) == ConnName(name, ipPort, b) {
      var n := |name + "-" + ipPort + "#"|;
      assert ConnName(name, ipPort, a)[n..] == Decimal(a);
      assert ConnName(name, ipPort, b)[n..] == Decimal(b);
      ValueOfDecimal(a);
      ValueOfDecimal(b);
    }
  }
}

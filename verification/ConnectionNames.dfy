/** The names under which TcpServer keeps its connections (src/TcpServer.cc). */
module ConnectionNames {
  const INT_MAX: nat := 0x7fff_ffff

  /** sizeof buf in newConnection. */
  const NAME_BUFFER: nat := 64

  /** The longest "a.b.c.d:port". */
  const MAX_IP_PORT: nat := 21

  function Digit(d: nat): char
    requires d < 10
  {
    '0' + d as char
  }

  /** The "%d" rendering of a non-negative int. */
  function Decimal(n: nat): (s: string)
    ensures 1 <= |s|
  {
    if n < 10 then [Digit(n)] else Decimal(n / 10) + [Digit(n % 10)]
  }

  /** The number that a string of digits is read as, from the left. */
  function Value(s: string): int
  {
    if s == "" then 0 else 10 * Value(s[..|s| - 1]) + (s[|s| - 1] as int - '0' as int)
  }

  /** The rendering is read back as the number, and it is the usual one: digits only, and
      no leading zero except for zero itself. */
  lemma {:induction false} DecimalReadsBack(n: nat)
    ensures Value(Decimal(n)) == n
    ensures forall c | c in Decimal(n) :: '0' <= c <= '9'
    ensures Decimal(n)[0] == '0' <==> n == 0
    decreases n
  {
    var s := Decimal(n);
    assert ('0' + (n % 10) as char) as int == 48 + n % 10;
    if n < 10 {
      assert s[..0] == "" && Value(s[..0]) == 0;
    } else {
      DecimalReadsBack(n / 10);
      assert s[..|s| - 1] == Decimal(n / 10) && s[0] == Decimal(n / 10)[0];
    }
  }

  lemma DigitInjective(a: nat, b: nat)
    requires a < 10 && b < 10 && Digit(a) == Digit(b)
    ensures a == b
  {
    assert ('0' + a as char) as int == 48 + a && ('0' + b as char) as int == 48 + b;
  }

  lemma {:induction false} DecimalInjective(a: nat, b: nat)
    requires Decimal(a) == Decimal(b)
    ensures a == b
    decreases a
  {
    var s := Decimal(a);
    if a < 10 && b < 10 {
      assert s[0] == Digit(a) == Digit(b);
      DigitInjective(a, b);
    } else if 10 <= a && 10 <= b {
      assert s[|s| - 1] == Digit(a % 10) == Digit(b % 10);
      DigitInjective(a % 10, b % 10);
      assert s[..|s| - 1] == Decimal(a / 10) == Decimal(b / 10);
      DecimalInjective(a / 10, b / 10);
    }
  }

  function Pow10(k: nat): nat { if k == 0 then 1 else 10 * Pow10(k - 1) }

  lemma {:induction false} DecimalLength(n: nat, k: nat)
    requires 1 <= k && n < Pow10(k)
    ensures |Decimal(n)| <= k
    decreases k
  {
    if 10 <= n {
      assert Pow10(1) == 10;
      DecimalLength(n / 10, k - 1);
    }
  }

  lemma IntHasTenDigits(n: nat)
    requires n <= INT_MAX
    ensures |Decimal(n)| <= 10
  {
    assert Pow10(2) == 100;
    assert Pow10(4) == 10_000;
    assert Pow10(6) == 1_000_000;
    assert Pow10(8) == 100_000_000;
    assert Pow10(10) == 10_000_000_000;
    DecimalLength(n, 10);
  }

  /** snprintf into the buffer: at most 63 characters survive. */
  function Truncated(s: string): string { if |s| < NAME_BUFFER then s else s[..NAME_BUFFER - 1] }

  function ConnName(server: string, ipPort: string, id: nat): string
  {
    server + Truncated("-" + ipPort + "#" + Decimal(id))
  }

  /** For any int id and any IPv4 address nothing is truncated: the name is the server's,
      a dash, the address, a sharp and the id in decimal, which can be read back. */
  lemma NameIsWhole(server: string, ipPort: string, id: nat)
    requires |ipPort| <= MAX_IP_PORT && id <= INT_MAX
    ensures ConnName(server, ipPort, id) == server + ("-" + ipPort + "#") + Decimal(id)
    ensures Value(ConnName(server, ipPort, id)[|server| + |ipPort| + 2..]) == id
  {
    IntHasTenDigits(id);
    DecimalReadsBack(id);
    var rendered := "-" + ipPort + "#" + Decimal(id);
    assert |rendered| < NAME_BUFFER;
    assert server + (("-" + ipPort + "#") + Decimal(id)) == (server + ("-" + ipPort + "#")) + Decimal(id);
    assert (server + ("-" + ipPort + "#") + Decimal(id))[|server| + |ipPort| + 2..] == Decimal(id);
  }

  lemma SameTail(prefix: string, x: string, y: string)
    requires prefix + x == prefix + y
    ensures x == y
  {
    assert x == (prefix + x)[|prefix|..] && y == (prefix + y)[|prefix|..];
  }

  /** So different ids have different names. */
  lemma NamesDistinct(server: string, ipPort: string, a: nat, b: nat)
    requires |ipPort| <= MAX_IP_PORT && a <= INT_MAX && b <= INT_MAX
    requires ConnName(server, ipPort, a) == ConnName(server, ipPort, b)
    ensures a == b
  {
    NameIsWhole(server, ipPort, a);
    NameIsWhole(server, ipPort, b);
    SameTail(server + ("-" + ipPort + "#"), Decimal(a), Decimal(b));
    DecimalInjective(a, b);
  }
}

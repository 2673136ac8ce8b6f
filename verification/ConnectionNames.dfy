/** The names Server.cpp gives its connections: server name, "-", listening address, "#", id. */
module ConnectionNames {

  /** Ids are C++ ints; the name buffer is 64 bytes, one of them the terminator. */
  const ID_LIMIT: nat := 0x8000_0000
  const NAME_BUFFER: nat := 64

  function Digit(d: nat): char
    requires d < 10
  {
    '0' + d as char
  }

  /** The decimal representation printf's %d and %u give. */
  function Decimal(n: nat): (s: string)
    ensures s != []
  {
    if n < 10 then [Digit(n)] else Decimal(n / 10) + [Digit(n % 10)]
  }

  /** Reading it back. */
  function Parse(s: string): int {
    if s == [] then 0 else 10 * Parse(s[..|s| - 1]) + (s[|s| - 1] as int - '0' as int)
  }

  lemma {:induction false} ParseDecimal(n: nat)
    ensures Parse(Decimal(n)) == n
  {
    if n >= 10 {
      ParseDecimal(n / 10);
      assert Decimal(n)[..|Decimal(n)| - 1] == Decimal(n / 10);
    } else {
      assert Decimal(n)[..0] == [];
    }
  }

  function Pow10(k: nat): nat {
    if k == 0 then 1 else 10 * Pow10(k - 1)
  }

  /** A number below 10^k has at most k digits. */
  lemma {:induction false} DecimalLength(n: nat, k: nat)
    requires k > 0 && n < Pow10(k)
    ensures |Decimal(n)| <= k
  {
    if n >= 10 {
      assert k > 1;
      DecimalLength(n / 10, k - 1);
    }
  }

  /** Address::toIpPort for the four address bytes and the port. */
  function IpPort(a: nat, b: nat, c: nat, d: nat, port: nat): string {
    Decimal(a) + "." + Decimal(b) + "." + Decimal(c) + "." + Decimal(d) + ":" + Decimal(port)
  }

  /** snprintf into a buffer of the given size. */
  function Printed(text: string, size: nat): string {
    if |text| < size then text else if size == 0 then [] else text[..size - 1]
  }

  function ConnName(server: string, ipPort: string, id: nat): string {
    server + Printed("-" + ipPort + "#" + Decimal(id), NAME_BUFFER)
  }

  lemma IpPortLength(a: nat, b: nat, c: nat, d: nat, port: nat)
    requires a < 256 && b < 256 && c < 256 && d < 256 && port < 65536
    ensures |IpPort(a, b, c, d, port)| <= 21
  {
    assert Pow10(3) == 1000;
    assert Pow10(5) == 100000 by { assert Pow10(4) == 10000; }
    DecimalLength(a, 3);
    DecimalLength(b, 3);
    DecimalLength(c, 3);
    DecimalLength(d, 3);
    DecimalLength(port, 5);
  }

  /** What snprintf leaves in the 64-byte buffer: at most 63 characters of the text, from its start. */
  lemma PrintedLaw(text: string)
    ensures Printed(text, NAME_BUFFER) == if |text| <= 63 then text else text[..63]
  {
  }

  /* An address reads back: its four numbers and its port. */

  predicate AllDigits(s: string) {
    forall i :: 0 <= i < |s| ==> '0' <= s[i] <= '9'
  }

  lemma {:induction false} DecimalDigits(n: nat)
    ensures AllDigits(Decimal(n))
  {
    if n >= 10 {
      DecimalDigits(n / 10);
    }
  }

  /** The text up to the first separator, and the text behind it. */
  function Upto(s: string, sep: char): string {
    if s == [] || s[0] == sep then [] else [s[0]] + Upto(s[1..], sep)
  }

  function Behind(s: string, sep: char): string {
    if s == [] then [] else if s[0] == sep then s[1..] else Behind(s[1..], sep)
  }

  lemma {:induction false} SplitsThere(digits: string, sep: char, rest: string)
    requires AllDigits(digits) && !('0' <= sep <= '9')
    ensures Upto(digits + [sep] + rest, sep) == digits && Behind(digits + [sep] + rest, sep) == rest
  {
    var s := digits + [sep] + rest;
    if digits == [] {
      assert s == [sep] + rest && s[1..] == rest;
    } else {
      assert s[1..] == digits[1..] + [sep] + rest;
      SplitsThere(digits[1..], sep, rest);
    }
  }

  /** Three numbers behind dots, one behind a colon, and the port. */
  function ReadIpPort(s: string): seq<int> {
    var s1 := Behind(s, '.');
    var s2 := Behind(s1, '.');
    var s3 := Behind(s2, '.');
    [Parse(Upto(s, '.')), Parse(Upto(s1, '.')), Parse(Upto(s2, '.')), Parse(Upto(s3, ':')), Parse(Behind(s3, ':'))]
  }

  lemma IpPortReadsBack(a: nat, b: nat, c: nat, d: nat, port: nat)
    ensures ReadIpPort(IpPort(a, b, c, d, port)) == [a, b, c, d, port]
  {
    var t3 := Decimal(d) + ":" + Decimal(port);
    var t2 := Decimal(c) + "." + t3;
    var t1 := Decimal(b) + "." + t2;
    assert IpPort(a, b, c, d, port) == Decimal(a) + "." + t1;
    NumberReadsBack(a, '.', t1);
    NumberReadsBack(b, '.', t2);
    NumberReadsBack(c, '.', t3);
    NumberReadsBack(d, ':', Decimal(port));
    ParseDecimal(port);
  }

  lemma NumberReadsBack(n: nat, sep: char, rest: string)
    requires !('0' <= sep <= '9')
    ensures var s := Decimal(n) + [sep] + rest;
            Parse(Upto(s, sep)) == n && Behind(s, sep) == rest
  {
    DecimalDigits(n);
    SplitsThere(Decimal(n), sep, rest);
    ParseDecimal(n);
  }

  /** Up to the int limit nothing is cut off. */
  lemma NameNotTruncated(server: string, ipPort: string, id: nat)
    requires |ipPort| <= 21 && id < 0x8000_0000
    ensures ConnName(server, ipPort, id) == server + ("-" + ipPort + "#" + Decimal(id))
  {
    assert Pow10(10) == 10_000_000_000 by {
      assert Pow10(4) == 10000;
      assert Pow10(8) == 100_000_000 by { assert Pow10(6) == 1_000_000; }
    }
    DecimalLength(id, 10);
  }

  /** Erasing a name takes out one entry at most. */
  lemma Without<V>(m: map<string, V>, n: string)
    ensures |m - {n}| == |m| - (if n in m then 1 else 0)
  {
    if n in m {
      assert m == (m - {n})[n := m[n]];
    } else {
      assert m == m - {n};
    }
  }

  /** Two connections of one server never share a name. */
  lemma NamesDistinct(server: string, ipPort: string, i: nat, j: nat)
    requires |ipPort| <= 21 && i < 0x8000_0000 && j < 0x8000_0000
    requires ConnName(server, ipPort, i) == ConnName(server, ipPort, j)
    ensures i == j
  {
    NameNotTruncated(server, ipPort, i);
    NameNotTruncated(server, ipPort, j);
    var prefix := server + ("-" + ipPort + "#");
    assert ConnName(server, ipPort, i) == prefix + Decimal(i);
    assert ConnName(server, ipPort, j) == prefix + Decimal(j);
    assert Decimal(i) == (prefix + Decimal(i))[|prefix|..];
    assert Decimal(j) == (prefix + Decimal(j))[|prefix|..];
    ParseDecimal(i);
    ParseDecimal(j);
  }
}

/**
 * The text forms the packet router builds its connection-table keys from:
 * the decimal text of a port (`Port.valueAsString()`), the dotted-quad text of
 * an IPv4 address (`Inet4Address.getHostAddress()`), and the 4-tuple key
 * "src:sport-dst:dport". The point of this module is that the key determines
 * the 4-tuple: two different TCP flows never share a table entry.
 */
module FlowKey {
  import opened Octets

  type Port = x: int | 0 <= x < 65536

  datatype Ipv4Address = Ipv4Address(o1: Octet, o2: Octet, o3: Octet, o4: Octet)

  predicate IsDigit(c: char) {
    '0' <= c <= '9'
  }

  predicate AllDigits(s: string) {
    forall i :: 0 <= i < |s| ==> IsDigit(s[i])
  }

  function DigitChar(d: int): (c: char)
    requires 0 <= d < 10
    ensures IsDigit(c) && c as int - '0' as int == d
  {
    ('0' as int + d) as char
  }

  /** Decimal text of a non-negative number, most significant digit first, without leading zeros. */
  function Decimal(n: nat): (s: string)
    ensures 1 <= |s| && AllDigits(s)
    ensures n < 10 <==> |s| == 1
    ensures |s| > 1 ==> s[0] != '0'
  {
    if n < 10 then [DigitChar(n)] else Decimal(n / 10) + [DigitChar(n % 10)]
  }

  /** The number a string of digits denotes: the partner of Decimal. */
  function DecimalValue(s: string): nat
    requires AllDigits(s)
  {
    if s == [] then 0
    else DecimalValue(s[..|s| - 1]) * 10 + (s[|s| - 1] as int - '0' as int)
  }

  lemma {:induction false} DecimalRoundTrip(n: nat)
    ensures DecimalValue(Decimal(n)) == n
  {
    if n >= 10 {
      var s := Decimal(n);
      assert s[..|s| - 1] == Decimal(n / 10);
      DecimalRoundTrip(n / 10);
    }
  }

  lemma DecimalInjective(m: nat, n: nat)
    requires Decimal(m) == Decimal(n)
    ensures m == n
  {
    DecimalRoundTrip(m);
    DecimalRoundTrip(n);
  }

  /** x, then the separator c, then y. */
  function Joined(x: string, c: char, y: string): (s: string)
    ensures |s| == |x| + 1 + |y|
    ensures forall i :: 0 <= i < |s| ==> s[i] == c || s[i] in x || s[i] in y
  {
    var s := x + [c] + y;
    assert forall i :: 0 <= i < |s| ==> s[i] == c || s[i] in x || s[i] in y by {
      forall i | 0 <= i < |s| ensures s[i] == c || s[i] in x || s[i] in y {
        if i < |x| {
          assert s[i] == x[i];
        } else if |x| < i {
          assert s[i] == y[i - |x| - 1];
        }
      }
    }
    s
  }

  /** `Inet4Address.getHostAddress()`: the four octets in decimal, separated by dots. */
  function HostAddress(a: Ipv4Address): (s: string)
    ensures forall i :: 0 <= i < |s| ==> IsDigit(s[i]) || s[i] == '.'
  {
    Joined(Decimal(a.o1), '.', Joined(Decimal(a.o2), '.', Joined(Decimal(a.o3), '.', Decimal(a.o4))))
  }

  /** The connection-table key of a TCP flow: "src:sport-dst:dport". */
  function ConnKey(src: Ipv4Address, srcPort: Port, dst: Ipv4Address, dstPort: Port): string {
    Joined(HostAddress(src), ':', Joined(Decimal(srcPort), '-', Joined(HostAddress(dst), ':', Decimal(dstPort))))
  }

  /** A separator that occurs in neither left part splits a string in one way only. */
  lemma SplitAtSeparator(c: char, x: string, y: string, x': string, y': string)
    requires c !in x && c !in x'
    requires Joined(x, c, y) == Joined(x', c, y')
    ensures x == x' && y == y'
  {
    var s := Joined(x, c, y);
    assert s == x + [c] + y == x' + [c] + y';
    assert forall i :: 0 <= i < |x| ==> s[i] == x[i] != c;
    assert forall i :: 0 <= i < |x'| ==> s[i] == x'[i] != c;
    assert s[|x|] == c && s[|x'|] == c;
    assert x == s[..|x|] && x' == s[..|x'|];
    assert y == s[|x| + 1..] && y' == s[|x'| + 1..];
  }

  lemma NoSeparatorInDecimal(c: char, n: nat)
    requires !IsDigit(c)
    ensures c !in Decimal(n)
  {
  }

  lemma NoSeparatorInHostAddress(c: char, a: Ipv4Address)
    requires !IsDigit(c) && c != '.'
    ensures c !in HostAddress(a)
  {
  }

  lemma HostAddressInjective(a: Ipv4Address, b: Ipv4Address)
    requires HostAddress(a) == HostAddress(b)
    ensures a == b
  {
    NoSeparatorInDecimal('.', a.o1); NoSeparatorInDecimal('.', b.o1);
    NoSeparatorInDecimal('.', a.o2); NoSeparatorInDecimal('.', b.o2);
    NoSeparatorInDecimal('.', a.o3); NoSeparatorInDecimal('.', b.o3);
    var a4, b4 := Joined(Decimal(a.o3), '.', Decimal(a.o4)), Joined(Decimal(b.o3), '.', Decimal(b.o4));
    var a3, b3 := Joined(Decimal(a.o2), '.', a4), Joined(Decimal(b.o2), '.', b4);
    SplitAtSeparator('.', Decimal(a.o1), a3, Decimal(b.o1), b3);
    SplitAtSeparator('.', Decimal(a.o2), a4, Decimal(b.o2), b4);
    SplitAtSeparator('.', Decimal(a.o3), Decimal(a.o4), Decimal(b.o3), Decimal(b.o4));
    DecimalInjective(a.o1, b.o1);
    DecimalInjective(a.o2, b.o2);
    DecimalInjective(a.o3, b.o3);
    DecimalInjective(a.o4, b.o4);
  }

  /** Distinct 4-tuples get distinct keys, so one table entry serves exactly one flow. */
  lemma ConnKeyInjective(src: Ipv4Address, srcPort: Port, dst: Ipv4Address, dstPort: Port,
                         src': Ipv4Address, srcPort': Port, dst': Ipv4Address, dstPort': Port)
    requires ConnKey(src, srcPort, dst, dstPort) == ConnKey(src', srcPort', dst', dstPort')
    ensures src == src' && srcPort == srcPort' && dst == dst' && dstPort == dstPort'
  {
    NoSeparatorInHostAddress(':', src); NoSeparatorInHostAddress(':', src');
    NoSeparatorInHostAddress(':', dst); NoSeparatorInHostAddress(':', dst');
    NoSeparatorInDecimal('-', srcPort); NoSeparatorInDecimal('-', srcPort');
    var r, r' := Joined(HostAddress(dst), ':', Decimal(dstPort)), Joined(HostAddress(dst'), ':', Decimal(dstPort'));
    var t, t' := Joined(Decimal(srcPort), '-', r), Joined(Decimal(srcPort'), '-', r');
    SplitAtSeparator(':', HostAddress(src), t, HostAddress(src'), t');
    SplitAtSeparator('-', Decimal(srcPort), r, Decimal(srcPort'), r');
    SplitAtSeparator(':', HostAddress(dst), Decimal(dstPort), HostAddress(dst'), Decimal(dstPort'));
    HostAddressInjective(src, src');
    HostAddressInjective(dst, dst');
    DecimalInjective(srcPort, srcPort');
    DecimalInjective(dstPort, dstPort');
  }
}

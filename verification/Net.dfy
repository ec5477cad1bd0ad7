/** Socket addresses as the routers parse, compare and print them. */
module Net {
  const U64_MAX: nat := 0xFFFF_FFFF_FFFF_FFFF

  /** Where a worker's Go code stops counting revisions and incarnations. */
  const I63_MAX: nat := 0x7FFF_FFFF_FFFF_FFFF

  type U64 = n: nat | n <= U64_MAX
  type U16 = n: nat | n < 0x1_0000
  type Byte = n: nat | n < 0x100
  type Groups = g: seq<U16> | |g| == 8 witness [0, 0, 0, 0, 0, 0, 0, 0]

  datatype Endpoint =
    | V4(a: Byte, b: Byte, c: Byte, d: Byte, port: U16)
    | V6(groups: Groups, scope: nat, port: U16)
  {
    /** A second spelling of an address: scoped, or IPv4 mapped into IPv6. */
    predicate Alias() {
      V6? && (scope != 0 || Mapped(groups))
    }

    predicate Unspecified() {
      match this
      case V4(a, b, c, d, _) => a == b == c == d == 0
      case V6(g, _, _) => forall i :: 0 <= i < 8 ==> g[i] == 0
    }

    predicate Multicast() {
      match this
      case V4(a, _, _, _, _) => 224 <= a < 240
      case V6(g, _, _) => 0xff00 <= g[0]
    }

    predicate Routable() {
      !Alias() && port != 0 && !Unspecified() && !Multicast()
    }

    /** The length of the printed address, the IPv6 one in the form of section 4 of RFC 5952. */
    function TextLength(): nat {
      match this
      case V4(a, b, c, d, port) => V4Length(a, b, c, d) + 1 + Decimal(port)
      case V6(g, scope, port) =>
        var zone := if scope == 0 then 0 else 1 + Decimal(scope);
        2 + V6Length(g) + zone + 1 + Decimal(port)
    }
  }

  predicate Mapped(g: Groups) {
    g[0] == g[1] == g[2] == g[3] == g[4] == 0 && g[5] == 0xffff
  }

  /** How many decimal digits a number prints with. */
  function Decimal(n: nat): (d: nat)
    ensures 1 <= d
  {
    if n < 10 then 1 else 1 + Decimal(n / 10)
  }

  lemma {:induction false} DecimalIsMonotone(m: nat, n: nat)
    requires m <= n
    ensures Decimal(m) <= Decimal(n)
    decreases m
  {
    if 10 <= m {
      DecimalIsMonotone(m / 10, n / 10);
    }
  }

  lemma DecimalOfU64()
    ensures Decimal(U64_MAX) <= 20
  {
    assert Decimal(184467440737) == 12;
    assert Decimal(18446744073709551615) == 20;
  }

  function Hexadecimal(n: U16): nat {
    if n < 0x10 then 1 else if n < 0x100 then 2 else if n < 0x1000 then 3 else 4
  }

  function V4Length(a: Byte, b: Byte, c: Byte, d: Byte): nat {
    Decimal(a) + Decimal(b) + Decimal(c) + Decimal(d) + 3
  }

  function V6Length(g: Groups): nat {
    if Mapped(g) then
      |"::ffff:"| + V4Length(g[6] / 256, g[6] % 256, g[7] / 256, g[7] % 256)
    else
      var (start, length) := LongestZeros(g, 0, 0, 0);
      if length < 2 then GroupsLength(g)
      else GroupsLength(g[..start]) + 2 + GroupsLength(g[start + length..])
  }

  /** Groups in hexadecimal, colons between them. */
  function GroupsLength(g: seq<U16>): nat {
    if |g| == 0 then 0
    else if |g| == 1 then Hexadecimal(g[0])
    else Hexadecimal(g[0]) + 1 + GroupsLength(g[1..])
  }

  function ZerosAt(g: seq<U16>, i: nat): (n: nat)
    requires i <= |g|
    ensures i + n <= |g|
    decreases |g| - i
  {
    if i < |g| && g[i] == 0 then 1 + ZerosAt(g, i + 1) else 0
  }

  /** The first longest run of zero groups at or after `i`, unless an earlier one is as long. */
  function LongestZeros(g: Groups, i: nat, start: nat, length: nat): (r: (nat, nat))
    requires i <= 8 && start + length <= 8
    ensures r.0 + r.1 <= 8
    decreases 8 - i
  {
    if i == 8 then (start, length)
    else if length < ZerosAt(g, i) then LongestZeros(g, i + 1, i, ZerosAt(g, i))
    else LongestZeros(g, i + 1, start, length)
  }
}

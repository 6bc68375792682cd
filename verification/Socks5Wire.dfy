/** The SOCKS5 address block (section 5 of RFC 1928) as a reference codec, against which
    the three decoders and the datagram encoder of the source are specified. */
module Socks5Wire {
  import opened Basics
  import opened Addresses

  const ATYP_IPV4: byte := 0x01
  const ATYP_DOMAIN: byte := 0x03
  const ATYP_IPV6: byte := 0x04

  /** What is on the wire: the address type and its bytes. */
  datatype WireHost = V4(octets: seq<byte>) | Name(octets: seq<byte>) | V6(octets: seq<byte>)
  datatype WireAddr = WireAddr(host: WireHost, port: int)

  predicate ValidHost(h: WireHost) {
    match h
    case V4(o) => |o| == 4
    case Name(o) => |o| <= 255
    case V6(o) => |o| == 16
  }

  predicate ValidAddr(a: WireAddr) {
    ValidHost(a.host) && 0 <= a.port < 65536
  }

  /** A destination as the program uses it. An address is printed by net.IP.String, which
      shows an IPv4-mapped address as IPv4, so only the normal form survives. */
  datatype Host = Address(ip: Ip) | Domain(name: seq<byte>)
  datatype Target = Target(host: Host, port: int)

  function TargetOf(a: WireAddr): Target {
    Target(match a.host
           case V4(o) => Address(Normal(o))
           case Name(o) => Domain(o)
           case V6(o) => Address(Normal(o)),
           a.port)
  }

  /** Two bytes in network order; uint16 conversion keeps the low sixteen bits. */
  function PortBytes(port: int): seq<byte> {
    [(port % 65536) / 256, port % 256]
  }

  function PortOf(hi: byte, lo: byte): int {
    hi * 256 + lo
  }

  lemma LowByte(x: int, q: int, l: int)
    requires x == 256 * q + l && 0 <= l < 256
    ensures x % 256 == l && x / 256 == q
  {
  }

  lemma PortWraps(port: int)
    ensures PortBytes(port) == PortBytes(port % 65536)
  {
    var q, r := port / 65536, port % 65536;
    var h, l := r / 256, r % 256;
    assert port == 65536 * q + r && r == 256 * h + l;
    LowByte(port, 256 * q + h, l);
    assert r % 65536 == r;
  }

  lemma PortRoundTrip(port: int)
    ensures PortOf(PortBytes(port)[0], PortBytes(port)[1]) == port % 65536
  {
    PortWraps(port);
    var r := port % 65536;
    assert r == 256 * (r / 256) + r % 256;
  }

  lemma BytesOfPort(hi: byte, lo: byte)
    ensures PortBytes(PortOf(hi, lo)) == [hi, lo] && 0 <= PortOf(hi, lo) < 65536
  {
    var h: int, l: int := hi, lo;
    var p := h * 256 + l;
    assert 0 <= p < 65536;
    assert p % 65536 == p;
    assert p / 256 == h && p % 256 == l;
  }

  /** ATYP and the address. */
  function HostBytes(host: WireHost): seq<byte>
    requires ValidHost(host)
  {
    match host
    case V4(o) => [ATYP_IPV4] + o
    case Name(o) => [ATYP_DOMAIN, |o|] + o
    case V6(o) => [ATYP_IPV6] + o
  }

  /** ATYP, the address and the port. */
  function AddressBytes(a: WireAddr): seq<byte>
    requires ValidAddr(a)
  {
    HostBytes(a.host) + PortBytes(a.port)
  }

  datatype Decoded = Decoded(addr: WireAddr, used: nat)

  /** The reference decoder; bytes after the block are left alone. */
  function DecodeAddress(b: seq<byte>): Option<Decoded> {
    if |b| == 0 then None
    else if b[0] == ATYP_IPV4 then
      if |b| < 7 then None else Some(Decoded(WireAddr(V4(b[1..5]), PortOf(b[5], b[6])), 7))
    else if b[0] == ATYP_DOMAIN then
      if |b| < 2 then None
      else
        var n: int := b[1];
        if |b| < 4 + n then None
        else Some(Decoded(WireAddr(Name(b[2..2 + n]), PortOf(b[2 + n], b[3 + n])), 4 + n))
    else if b[0] == ATYP_IPV6 then
      if |b| < 19 then None else Some(Decoded(WireAddr(V6(b[1..17]), PortOf(b[17], b[18])), 19))
    else None
  }

  lemma DecodeOfParts(host: WireHost, port: seq<byte>, rest: seq<byte>)
    requires ValidHost(host) && |port| == 2
    ensures DecodeAddress(HostBytes(host) + port + rest)
            == Some(Decoded(WireAddr(host, PortOf(port[0], port[1])), |HostBytes(host)| + 2))
  {
    var b := HostBytes(host) + port + rest;
    match host
    case V4(o) => assert b[1..5] == o;
    case Name(o) => assert b[2..2 + |o|] == o;
    case V6(o) => assert b[1..17] == o;
  }

  /** Decoding an encoding gives the address back and stops at its end, whatever follows. */
  lemma DecodeOfEncode(a: WireAddr, rest: seq<byte>)
    requires ValidAddr(a)
    ensures DecodeAddress(AddressBytes(a) + rest) == Some(Decoded(a, |AddressBytes(a)|))
  {
    PortRoundTrip(a.port);
    assert a.port % 65536 == a.port;
    DecodeOfParts(a.host, PortBytes(a.port), rest);
  }

  /** What the decoder accepts is an encoding of the address it returns. */
  lemma EncodeOfDecode(b: seq<byte>)
    requires DecodeAddress(b).Some?
    ensures var d := DecodeAddress(b).value;
            ValidAddr(d.addr) && d.used <= |b| && b[..d.used] == AddressBytes(d.addr)
  {
    HostOfDecode(b);
    var w := DecodeAddress(b).value.used - 2;
    BytesOfPort(b[w], b[w + 1]);
    assert b[..w + 2] == b[..w] + [b[w], b[w + 1]];
  }

  lemma HostOfDecode(b: seq<byte>)
    requires DecodeAddress(b).Some?
    ensures var d := DecodeAddress(b).value;
            ValidHost(d.addr.host) && |HostBytes(d.addr.host)| + 2 == d.used <= |b|
            && b[..d.used - 2] == HostBytes(d.addr.host)
            && d.addr.port == PortOf(b[d.used - 2], b[d.used - 1])
  {
    if b[0] == ATYP_DOMAIN {
      var n: int := b[1];
      assert b[..2 + n] == [b[0], b[1]] + b[2..2 + n];
    } else {
      var w := if b[0] == ATYP_IPV4 then 4 else 16;
      assert b[..1 + w] == [b[0]] + b[1..1 + w];
    }
  }

  /** No address block is a proper prefix of another: a stream of blocks has one reading. */
  lemma AddressBytesPrefixFree(a: WireAddr, b: WireAddr, restA: seq<byte>, restB: seq<byte>)
    requires ValidAddr(a) && ValidAddr(b)
    requires AddressBytes(a) + restA == AddressBytes(b) + restB
    ensures a == b && restA == restB
  {
    DecodeOfEncode(a, restA);
    DecodeOfEncode(b, restB);
    assert restA == (AddressBytes(a) + restA)[|AddressBytes(a)|..];
    assert restB == (AddressBytes(b) + restB)[|AddressBytes(b)|..];
  }
}

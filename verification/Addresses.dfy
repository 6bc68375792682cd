/** IP addresses as Go's net.IP holds them: a byte slice that is usable at length 4 or 16. */
module Addresses {
  import opened Basics

  type Ip = seq<byte>

  /** The twelve bytes in front of an IPv4 address written in IPv6 form. */
  const V4_IN_V6_PREFIX: seq<byte> := [0, 0, 0, 0, 0, 0, 0, 0, 0, 0, 0xff, 0xff]

  /** net.IP.To4: four-byte addresses, and sixteen-byte ones that are IPv4-mapped. */
  function To4(ip: Ip): Option<seq<byte>> {
    if |ip| == 4 then Some(ip)
    else if |ip| == 16 && ip[..12] == V4_IN_V6_PREFIX then Some(ip[12..])
    else None
  }

  /** net.IP.To16. */
  function To16(ip: Ip): Option<seq<byte>> {
    if |ip| == 4 then Some(V4_IN_V6_PREFIX + ip)
    else if |ip| == 16 then Some(ip)
    else None
  }

  /** net.IP.Equal, case by case on the two lengths. */
  predicate Equal(a: Ip, b: Ip) {
    if |a| == |b| then a == b
    else if |a| == 4 && |b| == 16 then b[..12] == V4_IN_V6_PREFIX && b[12..] == a
    else if |a| == 16 && |b| == 4 then a[..12] == V4_IN_V6_PREFIX && a[12..] == b
    else false
  }

  /** The form in which an address is printed and compared: IPv4 whenever To4 allows it. */
  function Normal(ip: Ip): Ip {
    match To4(ip)
    case Some(v4) => v4
    case None => ip
  }

  predicate Usable(ip: Ip) {
    |ip| == 4 || |ip| == 16
  }

  predicate Mapped(ip: Ip) {
    |ip| == 16 && To4(ip).Some?
  }

  /** ipFamily, and the test made by remoteFor. */
  function Family(ip: Ip): int {
    if To4(ip).Some? then 4 else 6
  }

  /** Go's comparison is exactly equality of normal forms, hence an equivalence. */
  lemma EqualIsSameNormal(a: Ip, b: Ip)
    ensures Equal(a, b) <==> Normal(a) == Normal(b)
  {
    if |a| == 16 { assert a == a[..12] + a[12..]; }
    if |b| == 16 { assert b == b[..12] + b[12..]; }
  }

  /** To4 undoes To16: each family has one normal form and it is stable. */
  lemma NormalForms(ip: Ip)
    ensures Normal(Normal(ip)) == Normal(ip)
    ensures Usable(ip) ==> To16(ip).Some? && Normal(To16(ip).value) == Normal(ip)
    ensures Family(Normal(ip)) == Family(ip)
  {
    if |ip| == 4 {
      assert (V4_IN_V6_PREFIX + ip)[..12] == V4_IN_V6_PREFIX;
      assert (V4_IN_V6_PREFIX + ip)[12..] == ip;
    }
  }

  /** A net.UDPAddr; the IPv6 zone takes no part in any decision and is dropped. */
  datatype UdpAddr = UdpAddr(ip: Ip, port: int)

  /** The comparison setPeer makes. */
  predicate SamePeer(a: UdpAddr, b: UdpAddr) {
    Equal(a.ip, b.ip) && a.port == b.port
  }

  /** The normal form and the family, byte by byte. */
  lemma FormsByBytes(ip: Ip)
    ensures |ip| == 4 ==> Normal(ip) == ip && Family(ip) == 4
    ensures |ip| == 16 && ip[..12] == [0, 0, 0, 0, 0, 0, 0, 0, 0, 0, 0xff, 0xff] ==>
              Normal(ip) == ip[12..] && Family(ip) == 4
    ensures |ip| == 16 && ip[..12] != [0, 0, 0, 0, 0, 0, 0, 0, 0, 0, 0xff, 0xff] ==> Normal(ip) == ip && Family(ip) == 6
  {
  }
}

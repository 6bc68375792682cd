/** The datagram encoder of tunnel/udp.go and its relation to the datagram decoder
    (section 7 of RFC 1928). */
module UdpFrames {
  import opened Basics
  import opened Addresses
  import opened Socks5Wire
  import opened Socks5Decoders

  /** The address block for a socket address: IPv4 form whenever To4 allows it. */
  function BlockFor(a: UdpAddr): Option<WireAddr> {
    match To4(a.ip)
    case Some(v4) => Some(WireAddr(V4(v4), a.port % 65536))
    case None =>
      match To16(a.ip)
      case Some(v6) => Some(WireAddr(V6(v6), a.port % 65536))
      case None => None
  }

  function ReplyFrame(src: UdpAddr, payload: seq<byte>): Option<seq<byte>> {
    match BlockFor(src)
    case Some(block) => Some([0, 0, 0] + AddressBytes(block) + payload)
    case None => None
  }

  /** The bytes of a block, piece by piece; only the low sixteen bits of the port count. */
  lemma BlockBytes(a: UdpAddr)
    requires Usable(a.ip)
    ensures BlockFor(a).Some?
    ensures AddressBytes(BlockFor(a).value)
            == (if To4(a.ip).Some? then [0x01] + To4(a.ip).value else [0x04] + To16(a.ip).value) + PortBytes(a.port)
  {
    PortWraps(a.port);
  }

  /** appendUDPReply: grows the caller's buffer piece by piece; an address of any other
      length than 4 or 16 is refused. */
  method AppendUdpReply(buffer: seq<byte>, src: UdpAddr, payload: seq<byte>) returns (r: Option<seq<byte>>)
    ensures r.Some? <==> Usable(src.ip)
    ensures r.Some? ==> r.value == buffer + ReplyFrame(src, payload).value
  {
    var dst := buffer + [0x00, 0x00, 0x00];
    var v4, v6 := To4(src.ip), To16(src.ip);
    if v4.Some? {
      dst := dst + [0x01];
      dst := dst + v4.value;
    } else if v6.Some? {
      dst := dst + [0x04];
      dst := dst + v6.value;
    } else {
      return None;
    }
    var port := PortBytes(src.port);
    dst := dst + port;
    BlockBytes(src);
    Regrouped(buffer, if v4.Some? then [0x01] else [0x04], if v4.Some? then v4.value else v6.value, port, payload);
    return Some(dst + payload);
  }

  lemma Regrouped(buffer: seq<byte>, kind: seq<byte>, ip: seq<byte>, port: seq<byte>, payload: seq<byte>)
    ensures buffer + [0, 0, 0] + kind + ip + port + payload == buffer + ([0, 0, 0] + (kind + ip + port) + payload)
    ensures [5, 0, 0] + kind + ip + port == [5, 0, 0] + (kind + ip + port)
  {
    assert [5, 0, 0] + kind + ip + port == [5, 0, 0] + (kind + ip + port);
  }

  function BoundFrame(ip: Ip, port: int): Option<seq<byte>> {
    match BlockFor(UdpAddr(ip, port))
    case Some(block) => Some([5, 0, 0] + AddressBytes(block))
    case None => None
  }

  /** The reply to an ASSOCIATE request as sendSocks5Bound builds it. */
  method BoundReply(ip: Ip, port: int) returns (r: Option<seq<byte>>)
    ensures r == BoundFrame(ip, port)
  {
    var reply := [0x05, 0x00, 0x00];
    var v4, v6 := To4(ip), To16(ip);
    if v4.Some? {
      reply := reply + [0x01];
      reply := reply + v4.value;
    } else if v6.Some? {
      reply := reply + [0x04];
      reply := reply + v6.value;
    } else {
      return None;
    }
    var low := PortBytes(port);
    reply := reply + low;
    BlockBytes(UdpAddr(ip, port));
    Regrouped([], if v4.Some? then [0x01] else [0x04], if v4.Some? then v4.value else v6.value, low, []);
    return Some(reply);
  }

  /** Both replies, byte by byte: version 5 and success, or two reserved bytes and no fragment;
      then the address as IPv4 if it can be, and the port. */
  lemma RepliesByBytes(a: UdpAddr, payload: seq<byte>)
    requires Usable(a.ip) && 0 <= a.port < 65536
    ensures BoundFrame(a.ip, a.port).Some? && ReplyFrame(a, payload).Some?
    ensures var ip := Normal(a.ip);
            var block := [if |ip| == 4 then 1 else 4] + ip + [a.port / 256, a.port % 256];
            && BoundFrame(a.ip, a.port).value == [5, 0, 0] + block
            && ReplyFrame(a, payload).value == [0, 0, 0] + block + payload
  {
    BlockBytes(a);
    assert a.port % 65536 == a.port;
    var ip := Normal(a.ip);
    var block := [if |ip| == 4 then 1 else 4] + ip + [a.port / 256, a.port % 256];
    assert AddressBytes(BlockFor(a).value) == block;
  }

  /** The block of a usable address names its normal form. */
  lemma BlockNames(a: UdpAddr)
    requires Usable(a.ip)
    ensures BlockFor(a).Some? && ValidAddr(BlockFor(a).value)
    ensures TargetOf(BlockFor(a).value) == Target(Address(Normal(a.ip)), a.port % 65536)
  {
    NormalForms(a.ip);
  }

  /** The client reads from that reply the address the relay is bound to. */
  lemma BoundReplyReadsBack(ip: Ip, port: int)
    requires Usable(ip) && 0 < port < 65536
    ensures BoundFrame(ip, port).Some?
            && RequestTarget(BoundFrame(ip, port).value) == Parsed(Target(Address(Normal(ip)), port))
  {
    BlockNames(UdpAddr(ip, port));
    var block := BlockFor(UdpAddr(ip, port)).value;
    var reply := [5, 0, 0] + AddressBytes(block);
    assert BoundFrame(ip, port) == Some(reply);
    assert reply[3..] == AddressBytes(block) + [];
    RequestTargetExact(reply, block, []);
  }

  /** Parsing a reply gives back the normal form of the source, its port and the payload;
      the one port that does not survive is the one that truncates to zero. */
  lemma ReplyRoundTrip(src: UdpAddr, payload: seq<byte>)
    requires Usable(src.ip)
    ensures ReplyFrame(src, payload).Some?
    ensures var frame := ReplyFrame(src, payload).value;
            var back := UdpTarget(frame);
            (back.Some? <==> src.port % 65536 != 0)
            && (back.Some? ==> back.value.target == Target(Address(Normal(src.ip)), src.port % 65536)
                               && back.value.start <= |frame| && frame[back.value.start..] == payload)
  {
    var frame := ReplyFrame(src, payload).value;
    var block := BlockFor(src).value;
    assert frame[3..] == AddressBytes(block) + payload;
    DecodeOfEncode(block, payload);
    NormalForms(src.ip);
  }

  /** Two frames are equal only for the same peer, up to IPv4-mapped form, and payload. */
  lemma ReplyInjective(a: UdpAddr, b: UdpAddr, p: seq<byte>, q: seq<byte>)
    requires Usable(a.ip) && Usable(b.ip) && 0 <= a.port < 65536 && 0 <= b.port < 65536
    ensures ReplyFrame(a, p) == ReplyFrame(b, q) <==> SamePeer(a, b) && p == q
  {
    EqualIsSameNormal(a.ip, b.ip);
    var x, y := BlockFor(a).value, BlockFor(b).value;
    if ReplyFrame(a, p) == ReplyFrame(b, q) {
      var f, g := ReplyFrame(a, p).value, ReplyFrame(b, q).value;
      assert f[3..] == AddressBytes(x) + p;
      assert g[3..] == AddressBytes(y) + q;
      AddressBytesPrefixFree(x, y, p, q);
    }
  }

  /** A parsed buffer with a zero RSV field, cut at the end of its address block. */
  lemma ParsedShape(buf: seq<byte>) returns (a: WireAddr)
    requires UdpTarget(buf).Some? && buf[0] == 0 && buf[1] == 0
    ensures ValidAddr(a) && UdpTarget(buf).value.target == TargetOf(a)
    ensures UdpTarget(buf).value.start <= |buf|
    ensures buf == [0, 0, 0] + AddressBytes(a) + buf[UdpTarget(buf).value.start..]
    ensures a.host.V6? <==> buf[3] == ATYP_IPV6
    ensures a.host.V6? ==> a.host.octets == buf[4..20]
  {
    EncodeOfDecode(buf[3..]);
    var d := DecodeAddress(buf[3..]).value;
    a := d.addr;
    assert buf == buf[..3] + buf[3..][..d.used] + buf[3 + d.used..];
    assert buf[..3] == [0, 0, 0];
    if buf[3] == ATYP_IPV6 {
      SliceOfSuffix(buf, 3, 1, 17);
    }
  }

  predicate AddressDatagram(buf: seq<byte>) {
    UdpTarget(buf).Some? && UdpTarget(buf).value.target.host.Address? && buf[0] == 0 && buf[1] == 0
  }

  lemma MappedIsNotKept(buf: seq<byte>)
    requires AddressDatagram(buf) && buf[3] == ATYP_IPV6 && Mapped(buf[4..20])
    ensures var r := UdpTarget(buf).value;
            r.start <= |buf| && ReplyFrame(UdpAddr(r.target.host.ip, r.target.port), buf[r.start..]) != Some(buf)
  {
    var _ := ParsedShape(buf);
    var r := UdpTarget(buf).value;
    var block := BlockFor(UdpAddr(r.target.host.ip, r.target.port)).value;
    NormalForms(buf[4..20]);
    var frame := [0, 0, 0] + AddressBytes(block) + buf[r.start..];
    assert AddressBytes(block)[0] == ATYP_IPV4;
    assert frame[3] == ATYP_IPV4;
  }

  lemma OthersAreKept(buf: seq<byte>)
    requires AddressDatagram(buf) && !(buf[3] == ATYP_IPV6 && Mapped(buf[4..20]))
    ensures var r := UdpTarget(buf).value;
            r.start <= |buf| && ReplyFrame(UdpAddr(r.target.host.ip, r.target.port), buf[r.start..]) == Some(buf)
  {
    var a := ParsedShape(buf);
    var r := UdpTarget(buf).value;
    assert BlockFor(UdpAddr(r.target.host.ip, r.target.port)) == Some(a);
  }

  /** Re-encoding a parsed address datagram with a zero RSV field gives the same bytes,
      unless it carried an IPv4-mapped address, which comes back in IPv4 form. */
  lemma ReEncoding(buf: seq<byte>)
    requires AddressDatagram(buf)
    ensures var r := UdpTarget(buf).value;
            r.start <= |buf|
            && (ReplyFrame(UdpAddr(r.target.host.ip, r.target.port), buf[r.start..]) == Some(buf)
                <==> !(buf[3] == ATYP_IPV6 && Mapped(buf[4..20])))
  {
    if buf[3] == ATYP_IPV6 && Mapped(buf[4..20]) { MappedIsNotKept(buf); } else { OthersAreKept(buf); }
  }
}

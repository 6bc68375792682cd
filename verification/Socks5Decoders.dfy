/** The two decoders that work over a buffer (tunnel/masque.go parseSOCKS5Addr,
    tunnel/udp.go parseUDPRequest), and how far they agree. */
module Socks5Decoders {
  import opened Basics
  import opened Addresses
  import opened Socks5Wire

  /** What a call of parseSOCKS5Addr comes to; indexing past the slice is a Go panic. */
  datatype ParseOutcome = Parsed(target: Target) | Rejected | Panicked

  function RequestTarget(data: seq<byte>): ParseOutcome {
    if |data| == 4 && data[3] == ATYP_DOMAIN then Panicked
    else if |data| < 4 then Rejected
    else match DecodeAddress(data[3..])
         case Some(d) => if d.addr.port == 0 then Rejected else Parsed(TargetOf(d.addr))
         case None => Rejected
  }

  /** parseSOCKS5Addr. The length check in front of the switch covers byte 3 only, so a
      four-byte domain request reads past its end. */
  method ParseSocks5Addr(data: seq<byte>) returns (r: ParseOutcome)
    ensures r == RequestTarget(data)
  {
    if |data| < 4 {
      return Rejected;
    }
    var host: Host;
    var port: int;
    if data[3] == 0x01 {
      if |data| < 10 { return Rejected; }
      SliceOfSuffix(data, 3, 1, 5);
      host := Address(Normal(data[4..8]));
      port := PortOf(data[8], data[9]);
    } else if data[3] == 0x03 {
      if |data| < 5 { return Panicked; }
      var addrLen: int := data[4];
      if |data| < 5 + addrLen + 2 { return Rejected; }
      SliceOfSuffix(data, 3, 2, 2 + addrLen);
      host := Domain(data[5..5 + addrLen]);
      port := PortOf(data[5 + addrLen], data[5 + addrLen + 1]);
    } else if data[3] == 0x04 {
      if |data| < 22 { return Rejected; }
      SliceOfSuffix(data, 3, 1, 17);
      host := Address(Normal(data[4..20]));
      port := PortOf(data[20], data[21]);
    } else {
      return Rejected;
    }
    if port == 0 { return Rejected; }
    return Parsed(Target(host, port));
  }

  /** The call panics on exactly the four-byte domain requests, and otherwise accepts exactly
      the buffers that carry, from byte 3, the encoding of an address with a non-zero port. */
  lemma RequestTargetExact(data: seq<byte>, a: WireAddr, rest: seq<byte>)
    ensures RequestTarget(data).Panicked? <==> |data| == 4 && data[3] == ATYP_DOMAIN
    ensures |data| >= 4 && ValidAddr(a) && a.port != 0 && data[3..] == AddressBytes(a) + rest
            ==> RequestTarget(data) == Parsed(TargetOf(a))
    ensures RequestTarget(data).Parsed?
            ==> (exists b: WireAddr, tail: seq<byte> ::
                   ValidAddr(b) && b.port != 0 && data[3..] == AddressBytes(b) + tail
                   && RequestTarget(data).target == TargetOf(b))
  {
    if |data| >= 4 && ValidAddr(a) && a.port != 0 && data[3..] == AddressBytes(a) + rest {
      DecodeOfEncode(a, rest);
    }
    if RequestTarget(data).Parsed? {
      EncodeOfDecode(data[3..]);
      var d := DecodeAddress(data[3..]).value;
      assert data[3..] == AddressBytes(d.addr) + data[3..][d.used..];
    }
  }

  /** A decapsulated datagram: where it goes and where in the buffer its payload starts. */
  datatype UdpRequest = UdpRequest(target: Target, start: nat)

  function UdpTarget(buf: seq<byte>): Option<UdpRequest> {
    if |buf| < 4 || buf[2] != 0 then None
    else match DecodeAddress(buf[3..])
         case Some(d) =>
           if d.addr.port == 0 || d.addr.host == Name([]) then None
           else Some(UdpRequest(TargetOf(d.addr), 3 + d.used))
         case None => None
  }

  datatype Placed = Placed(host: Host, end: nat)

  /** The non-empty host after three bytes of header, and where it ends. */
  function HostAt(input: seq<byte>): Option<Placed>
    requires |input| >= 4
  {
    if input[3] == ATYP_IPV4 then if |input| < 8 then None else Some(Placed(Address(Normal(input[4..8])), 8))
    else if input[3] == ATYP_IPV6 then if |input| < 20 then None else Some(Placed(Address(Normal(input[4..20])), 20))
    else if input[3] != ATYP_DOMAIN || |input| < 5 || input[4] == 0 then None
    else
      var n: int := input[4];
      if |input| < 5 + n then None else Some(Placed(Domain(input[5..5 + n]), 5 + n))
  }

  /** An address block with a host is that host and two bytes of port. */
  lemma HostThenPort(input: seq<byte>)
    requires |input| >= 4
    ensures var p, d := HostAt(input), DecodeAddress(input[3..]);
            && (d.Some? && d.value.addr.host != Name([]) <==> p.Some? && p.value.end + 2 <= |input|)
            && (p.Some? && p.value.end + 2 <= |input| ==>
                  && d.value.addr.port == PortOf(input[p.value.end], input[p.value.end + 1])
                  && TargetOf(d.value.addr).host == p.value.host && 3 + d.value.used == p.value.end + 2)
  {
    if input[3] == ATYP_IPV4 {
      if |input| >= 8 { SliceOfSuffix(input, 3, 1, 5); }
    } else if input[3] == ATYP_IPV6 {
      if |input| >= 20 { SliceOfSuffix(input, 3, 1, 17); }
    } else if input[3] == ATYP_DOMAIN && |input| >= 5 {
      var n: int := input[4];
      if |input| >= 5 + n { SliceOfSuffix(input, 3, 2, 2 + n); }
    }
  }

  /** parseUDPRequest over the first n bytes of the read buffer. The payload is not copied:
      it is the part of the same buffer from the returned offset on. */
  method ParseUdpRequest(buf: array<byte>, n: nat) returns (r: Option<UdpRequest>)
    requires n <= buf.Length
    ensures r == UdpTarget(buf[..n])
    ensures r.Some? ==> r.value.start <= n
  {
    if n < 4 { return None; }
    if buf[2] != 0x00 { return None; }
    HostThenPort(buf[..n]);
    var placed := UdpHost(buf, n);
    if placed.None? { return None; }
    var off := placed.value.end;
    var port := PortOf(buf[off], buf[off + 1]);
    off := off + 2;
    if port == 0 { return None; }
    return Some(UdpRequest(Target(placed.value.host, port), off));
  }

  lemma SliceOfBuffer(buf: array<byte>, n: nat, i: nat, j: nat)
    requires i <= j <= n <= buf.Length
    ensures buf[..n][i..j] == buf[i..j]
  {
    var part, whole := buf[..n][i..j], buf[i..j];
    assert |part| == |whole|;
    forall k | 0 <= k < |part| ensures part[k] == whole[k] {
      assert part[k] == buf[..n][i + k] == buf[i + k];
    }
  }

  /** Its switch over the address type, which sees to it that the port is there too. */
  method UdpHost(buf: array<byte>, n: nat) returns (r: Option<Placed>)
    requires 4 <= n <= buf.Length
    ensures r == (match HostAt(buf[..n])
                  case Some(p) => if p.end + 2 <= n then Some(p) else None
                  case None => None)
    ensures r.Some? ==> r.value.end + 2 <= n
  {
    var off := 4;
    if buf[3] == 0x01 {
      if n < off + 4 + 2 { return None; }
      SliceOfBuffer(buf, n, off, off + 4);
      return Some(Placed(Address(Normal(buf[off..off + 4])), off + 4));
    } else if buf[3] == 0x03 {
      if n < off + 1 { return None; }
      var l: int := buf[off];
      off := off + 1;
      if l == 0 { return None; }
      if n < off + l + 2 { return None; }
      SliceOfBuffer(buf, n, off, off + l);
      return Some(Placed(Domain(buf[off..off + l]), off + l));
    } else if buf[3] == 0x04 {
      if n < off + 16 + 2 { return None; }
      SliceOfBuffer(buf, n, off, off + 16);
      return Some(Placed(Address(Normal(buf[off..off + 16])), off + 16));
    } else {
      return None;
    }
  }

  /** A datagram is accepted exactly when it is unfragmented and carries the encoding of an
      address with a non-empty name and non-zero port; the payload is all that follows. */
  lemma UdpTargetExact(buf: seq<byte>, a: WireAddr, rest: seq<byte>)
    ensures |buf| >= 4 && buf[2] == 0 && ValidAddr(a) && a.port != 0 && a.host != Name([])
            && buf[3..] == AddressBytes(a) + rest
            ==> UdpTarget(buf) == Some(UdpRequest(TargetOf(a), |buf| - |rest|))
    ensures UdpTarget(buf).Some?
            ==> (exists b: WireAddr ::
                   ValidAddr(b) && b.port != 0 && b.host != Name([])
                   && UdpTarget(buf).value.target == TargetOf(b)
                   && UdpTarget(buf).value.start <= |buf|
                   && buf[3..UdpTarget(buf).value.start] == AddressBytes(b))
  {
    if |buf| >= 4 && ValidAddr(a) && buf[3..] == AddressBytes(a) + rest {
      DecodeOfEncode(a, rest);
    }
    if UdpTarget(buf).Some? {
      EncodeOfDecode(buf[3..]);
      var d := DecodeAddress(buf[3..]).value;
      assert buf[3..][..d.used] == buf[3..3 + d.used];
    }
  }

  /** The two decoders on the same unfragmented buffer, of any length: the datagram decoder
      accepts exactly when the request decoder does and the name is not empty, and then both
      name the same target. */
  lemma DatagramAndRequestAgree(buf: seq<byte>)
    requires |buf| >= 3 && buf[2] == 0
    ensures UdpTarget(buf).Some?
            <==> RequestTarget(buf).Parsed? && RequestTarget(buf).target.host != Domain([])
    ensures UdpTarget(buf).Some? ==> UdpTarget(buf).value.target == RequestTarget(buf).target
  {
  }

  /** An address block, byte by byte: the type, for a name its length, the host, the port. */
  predicate Kind(kind: byte, host: seq<byte>) {
    (kind == 1 && |host| == 4) || (kind == 3 && |host| <= 255) || (kind == 4 && |host| == 16)
  }

  function Block(kind: byte, host: seq<byte>, hi: byte, lo: byte): seq<byte>
    requires Kind(kind, host)
  {
    (if kind == 3 then [3, |host|] else [kind]) + host + [hi, lo]
  }

  /** The host a block names: the name as it is, and an address as it is unless it is an IPv4
      address in IPv6 form, which is taken for the IPv4 address. */
  function Named(kind: byte, host: seq<byte>): Host {
    if kind == 3 then Domain(host)
    else if |host| == 16 && host[..12] == [0, 0, 0, 0, 0, 0, 0, 0, 0, 0, 0xff, 0xff] then Address(host[12..])
    else Address(host)
  }

  lemma BlockDecodes(kind: byte, host: seq<byte>, hi: byte, lo: byte, rest: seq<byte>) returns (a: WireAddr)
    requires Kind(kind, host)
    ensures ValidAddr(a) && a.port == 256 * hi + lo && TargetOf(a) == Target(Named(kind, host), 256 * hi + lo)
    ensures a.host == Name([]) <==> kind == 3 && host == []
    ensures DecodeAddress(Block(kind, host, hi, lo) + rest) == Some(Decoded(a, |Block(kind, host, hi, lo)|))
  {
    var wire := if kind == 1 then V4(host) else if kind == 3 then Name(host) else V6(host);
    a := WireAddr(wire, PortOf(hi, lo));
    FormsByBytes(host);
    assert HostBytes(wire) + [hi, lo] == Block(kind, host, hi, lo);
    DecodeOfParts(wire, [hi, lo], rest);
  }

  /** Both buffer decoders on the bytes themselves: which target each block gives, and that port
      zero, and for datagrams the empty name, give none. */
  lemma TargetsByBytes(header: seq<byte>, kind: byte, host: seq<byte>, hi: byte, lo: byte, rest: seq<byte>)
    requires |header| == 3 && Kind(kind, host)
    ensures var block, port := Block(kind, host, hi, lo), 256 * hi + lo;
            var buf := header + block + rest;
            && RequestTarget(buf) == (if port == 0 then Rejected else Parsed(Target(Named(kind, host), port)))
            && UdpTarget(buf) == (if header[2] != 0 || port == 0 || (kind == 3 && host == []) then None
                                  else Some(UdpRequest(Target(Named(kind, host), port), 3 + |block|)))
  {
    var block := Block(kind, host, hi, lo);
    var buf := header + block + rest;
    var a := BlockDecodes(kind, host, hi, lo, rest);
    assert buf[3..] == block + rest;
    assert buf[3] == kind && buf[2] == header[2];
  }

  /** And no other address type is understood. */
  lemma OtherKindsAreRefused(buf: seq<byte>)
    requires |buf| >= 4 && buf[3] != 1 && buf[3] != 3 && buf[3] != 4
    ensures RequestTarget(buf) == Rejected && UdpTarget(buf) == None
  {
  }
}

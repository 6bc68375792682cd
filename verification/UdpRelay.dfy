/** The UDP relays of tunnel/udp.go and tunnel/h2_udp.go: one client, pinned on first contact,
    exchanging datagrams with any number of targets. */
module UdpRelay {
  import opened Basics
  import opened Addresses
  import opened Socks5Wire
  import opened Socks5Decoders
  import opened UdpFrames

  // ---------------------------------------------------------------- sockets and resolution

  type Socket = nat

  /** h2UDPRemote: a socket inside the tunnel and the address family it serves. */
  datatype Remote = Remote(family: int, socket: Socket)

  /** Where datagrams leave: the host's own stack (HTTP/3 client), or sockets in the tunnel. */
  datatype Backend = Direct | Tunnel(remotes: seq<Remote>)

  /** What the resolver answers; an entry that is not an address is None. */
  datatype Lookup = Failed | Found(addresses: seq<Option<Ip>>)

  /** The resolver at the moment of a datagram. */
  type Resolver = seq<byte> -> Lookup

  predicate Serves(remotes: seq<Remote>, socket: Socket, family: int) {
    Remote(family, socket) in remotes
  }

  function FirstOfFamily(remotes: seq<Remote>, family: int): Option<Socket> {
    if remotes == [] then None
    else if remotes[0].family == family then Some(remotes[0].socket)
    else FirstOfFamily(remotes[1..], family)
  }

  /** remoteFor: the first socket of the address's family. */
  method RemoteFor(remotes: seq<Remote>, ip: Ip) returns (r: Option<Socket>)
    ensures r == FirstOfFamily(remotes, Family(ip))
  {
    var family := 6;
    if To4(ip).Some? { family := 4; }
    for i := 0 to |remotes|
      invariant FirstOfFamily(remotes, family) == FirstOfFamily(remotes[i..], family)
    {
      if remotes[i].family == family { return Some(remotes[i].socket); }
    }
    return None;
  }

  /** A socket is found exactly when the family is served, and it serves that family. */
  lemma {:induction false} FirstOfFamilyServes(remotes: seq<Remote>, family: int)
    ensures FirstOfFamily(remotes, family).Some? <==> exists s: Socket :: Serves(remotes, s, family)
    ensures FirstOfFamily(remotes, family).Some? ==> Serves(remotes, FirstOfFamily(remotes, family).value, family)
  {
    if remotes != [] {
      FirstOfFamilyServes(remotes[1..], family);
      assert Remote(family, remotes[0].socket) in remotes || remotes[0].family != family;
      forall s: Socket
        ensures Serves(remotes, s, family)
                <==> (remotes[0] == Remote(family, s) || Serves(remotes[1..], s, family))
      {
      }
    }
  }

  function FirstServed(remotes: seq<Remote>, addresses: seq<Option<Ip>>): Option<Ip> {
    if addresses == [] then None
    else if addresses[0].Some? && FirstOfFamily(remotes, Family(addresses[0].value)).Some? then addresses[0]
    else FirstServed(remotes, addresses[1..])
  }

  /** The address a datagram for this target is sent to, if any. */
  function Resolve(backend: Backend, target: Target, lookup: Resolver): Option<UdpAddr> {
    match (backend, target.host)
    case (Direct, Address(ip)) => Some(UdpAddr(ip, target.port))
    case (Direct, Domain(name)) =>
      var found := lookup(name);
      if found.Failed? || found.addresses == [] || found.addresses[0].None? then None
      else Some(UdpAddr(found.addresses[0].value, target.port))
    case (Tunnel(remotes), Address(ip)) =>
      if FirstOfFamily(remotes, Family(ip)).None? then None else Some(UdpAddr(ip, target.port))
    case (Tunnel(remotes), Domain(name)) =>
      if lookup(name).Failed? then None
      else match FirstServed(remotes, lookup(name).addresses)
           case Some(ip) => Some(UdpAddr(ip, target.port))
           case None => None
  }

  /** resolveH2UDPTarget: a literal needs a socket of its family; of a name's addresses the
      first one with such a socket is taken. */
  method ResolveInTunnel(remotes: seq<Remote>, target: Target, lookup: Resolver) returns (r: Option<UdpAddr>)
    requires 1 <= target.port <= 65535
    ensures r == Resolve(Tunnel(remotes), target, lookup)
  {
    if target.host.Address? {
      var socket := RemoteFor(remotes, target.host.ip);
      if socket.None? { return None; }
      return Some(UdpAddr(target.host.ip, target.port));
    }
    var found := lookup(target.host.name);
    if found.Failed? { return None; }
    var addresses := found.addresses;
    for i := 0 to |addresses|
      invariant FirstServed(remotes, addresses) == FirstServed(remotes, addresses[i..])
    {
      if addresses[i].Some? {
        var socket := RemoteFor(remotes, addresses[i].value);
        if socket.Some? { return Some(UdpAddr(addresses[i].value, target.port)); }
      }
    }
    return None;
  }

  /** resolveUDPTarget: a literal is taken as it is, and of a name's addresses the first. */
  method ResolveOnHost(target: Target, lookup: Resolver) returns (r: Option<UdpAddr>)
    ensures r == Resolve(Direct, target, lookup)
  {
    if target.host.Address? { return Some(UdpAddr(target.host.ip, target.port)); }
    var found := lookup(target.host.name);
    if found.Failed? { return None; }
    if found.addresses == [] { return None; }
    if found.addresses[0].None? { return None; }
    return Some(UdpAddr(found.addresses[0].value, target.port));
  }

  lemma {:induction false} FirstServedIsServed(remotes: seq<Remote>, addresses: seq<Option<Ip>>)
    ensures FirstServed(remotes, addresses).Some?
            ==> FirstOfFamily(remotes, Family(FirstServed(remotes, addresses).value)).Some?
                && FirstServed(remotes, addresses) in addresses
  {
    if addresses != [] {
      FirstServedIsServed(remotes, addresses[1..]);
    }
  }

  // ---------------------------------------------------------------- one association

  /** A datagram handed to a target, with the tunnel socket it left by. */
  datatype Sent = Sent(to: UdpAddr, payload: seq<byte>, via: Option<Socket>)

  /** A frame handed to the client side. */
  datatype Reply = Reply(to: UdpAddr, frame: seq<byte>)

  /** What the sockets and the resolver do: a datagram arrives on the client socket, is
      possibly looked up and possibly sent on; or one arrives from a target and is possibly
      written back. */
  datatype Event =
    | FromClient(src: UdpAddr, bytes: seq<byte>, lookup: Resolver, sendOk: bool)
    | FromTarget(src: UdpAddr, payload: seq<byte>, writeOk: bool)

  /** What becomes of a datagram of the pinned client. */
  function Forwarded(backend: Backend, bytes: seq<byte>, lookup: Resolver, sendOk: bool): Option<Sent> {
    match UdpTarget(bytes)
    case None => None
    case Some(req) =>
      if req.start > |bytes| || !sendOk then None
      else match Resolve(backend, req.target, lookup)
           case None => None
           case Some(to) =>
             match backend
             case Direct => Some(Sent(to, bytes[req.start..], None))
             case Tunnel(remotes) =>
               match FirstOfFamily(remotes, Family(to.ip))
               case None => None
               case Some(s) => Some(Sent(to, bytes[req.start..], Some(s)))
  }

  class Association {
    const backend: Backend
    var clientAddr: Option<UdpAddr>

    constructor (backend: Backend)
      ensures this.backend == backend && clientAddr == None
    {
      this.backend, clientAddr := backend, None;
    }

    /** setPeer: the first source is recorded; later ones must be the same peer. */
    method SetPeer(addr: UdpAddr) returns (ok: bool)
      modifies this
      ensures clientAddr == if old(clientAddr).None? then Some(addr) else old(clientAddr)
      ensures ok <==> SamePeer(clientAddr.value, addr)
    {
      if clientAddr.None? {
        clientAddr := Some(addr);
        EqualIsSameNormal(addr.ip, addr.ip);
        return true;
      }
      return Equal(clientAddr.value.ip, addr.ip) && clientAddr.value.port == addr.port;
    }

    method Peer() returns (r: Option<UdpAddr>)
      ensures r == clientAddr
    {
      r := clientAddr;
    }

    /** One round of the client-to-target loop on n bytes read into the buffer. */
    method ClientDatagram(buf: array<byte>, n: nat, src: UdpAddr, lookup: Resolver, sendOk: bool)
      returns (sent: Option<Sent>)
      requires n <= buf.Length
      modifies this
      ensures clientAddr == if old(clientAddr).None? then Some(src) else old(clientAddr)
      ensures sent == if SamePeer(clientAddr.value, src) then Forwarded(backend, buf[..n], lookup, sendOk) else None
      ensures After(backend, Relay(old(clientAddr), [], [], true), FromClient(src, buf[..n], lookup, sendOk))
              == Relay(clientAddr, Append([], sent), [], true)
    {
      var ours := SetPeer(src);
      if !ours { return None; }
      var request := ParseUdpRequest(buf, n);
      if request.None? { return None; }
      UdpPortInRange(buf[..n]);
      var payload := buf[request.value.start..n];
      assert payload == buf[..n][request.value.start..];
      var to: Option<UdpAddr>;
      if backend.Tunnel? {
        to := ResolveInTunnel(backend.remotes, request.value.target, lookup);
      } else {
        to := ResolveOnHost(request.value.target, lookup);
      }
      if to.None? { return None; }
      var via: Option<Socket> := None;
      if backend.Tunnel? {
        via := RemoteFor(backend.remotes, to.value.ip);
        if via.None? { return None; }
      }
      if !sendOk { return None; }
      return Some(Sent(to.value, payload, via));
    }

    /** One round of the target-to-client loop. A frame that cannot be written ends it. */
    method TargetDatagram(src: UdpAddr, payload: seq<byte>, writeOk: bool)
      returns (reply: Option<Reply>, ended: bool)
      ensures var due := clientAddr.Some? && Usable(src.ip);
              reply == (if due && writeOk then Some(Reply(clientAddr.value, ReplyFrame(src, payload).value)) else None)
              && (ended <==> due && !writeOk)
      ensures After(backend, Relay(clientAddr, [], [], true), FromTarget(src, payload, writeOk))
              == Relay(clientAddr, [], Append([], reply), !ended)
    {
      var peer := Peer();
      if peer.None? { return None, false; }
      var frame := AppendUdpReply([], src, payload);
      if frame.None? { return None, false; }
      if !writeOk { return None, true; }
      assert [] + ReplyFrame(src, payload).value == ReplyFrame(src, payload).value;
      return Some(Reply(peer.value, frame.value)), false;
    }
  }

  lemma UdpPortInRange(buf: seq<byte>)
    ensures UdpTarget(buf).Some? ==> 1 <= UdpTarget(buf).value.target.port <= 65535
    ensures UdpTarget(buf).Some? ==> UdpTarget(buf).value.start <= |buf|
  {
    if UdpTarget(buf).Some? {
      EncodeOfDecode(buf[3..]);
    }
  }

  // ---------------------------------------------------------------- what should be sent

  /** A datagram as RFC 1928 section 7 writes it: two reserved bytes, no fragment, a block with a
      host and a port, and the payload. */
  ghost predicate Carries(bytes: seq<byte>, kind: byte, host: seq<byte>, hi: byte, lo: byte, payload: seq<byte>) {
    && Kind(kind, host) && 256 * hi + lo != 0 && !(kind == 3 && host == [])
    && |bytes| >= 3 && bytes[2] == 0 && bytes == bytes[..3] + Block(kind, host, hi, lo) + payload
  }

  /** The addresses it may go to, best first. */
  function Candidates(kind: byte, host: seq<byte>, lookup: Resolver): seq<Option<Ip>> {
    match Named(kind, host)
    case Address(ip) => [Some(ip)]
    case Domain(name) => match lookup(name) case Failed => [] case Found(addresses) => addresses
  }

  /** The k-th socket is the first that serves this family. */
  ghost predicate FirstSocket(remotes: seq<Remote>, family: int, k: nat) {
    k < |remotes| && remotes[k].family == family && forall j :: 0 <= j < k ==> remotes[j].family != family
  }

  /** The i-th candidate is the first that is an address some socket serves. */
  ghost predicate FirstServable(remotes: seq<Remote>, candidates: seq<Option<Ip>>, i: nat) {
    && i < |candidates| && candidates[i].Some?
    && (exists r :: r in remotes && r.family == Family(candidates[i].value))
    && forall j :: 0 <= j < i && candidates[j].Some? ==>
                     forall r :: r in remotes ==> r.family != Family(candidates[j].value)
  }

  /** The host's own stack sends to the first candidate; the tunnel to the first it has a socket
      for, by the first socket of that address's family. */
  ghost predicate Chosen(backend: Backend, candidates: seq<Option<Ip>>, ip: Ip, via: Option<Socket>) {
    match backend
    case Direct => via == None && candidates != [] && candidates[0] == Some(ip)
    case Tunnel(remotes) =>
      exists i: nat, k: nat ::
        FirstServable(remotes, candidates, i) && candidates[i] == Some(ip)
        && FirstSocket(remotes, Family(ip), k) && via == Some(remotes[k].socket)
  }

  /** What a datagram of the pinned client asks to be sent: its payload, and nothing but its
      payload, to a chosen address and the port it names. */
  ghost predicate Asks(backend: Backend, bytes: seq<byte>, lookup: Resolver, sent: Sent) {
    exists kind: byte, host: seq<byte>, hi: byte, lo: byte ::
      && Carries(bytes, kind, host, hi, lo, sent.payload)
      && sent.to.port == 256 * hi + lo
      && Chosen(backend, Candidates(kind, host, lookup), sent.to.ip, sent.via)
  }

  lemma {:induction false} FirstOfFamilyIsFirst(remotes: seq<Remote>, family: int)
    ensures FirstOfFamily(remotes, family).None? <==> forall r :: r in remotes ==> r.family != family
    ensures forall k: nat :: FirstSocket(remotes, family, k) ==>
            FirstOfFamily(remotes, family) == Some(remotes[k].socket)
    ensures FirstOfFamily(remotes, family).Some? ==> exists k: nat :: FirstSocket(remotes, family, k)
  {
    if remotes != [] {
      var rest := remotes[1..];
      FirstOfFamilyIsFirst(rest, family);
      if remotes[0].family == family {
        assert FirstSocket(remotes, family, 0);
      } else {
        forall k: nat | FirstSocket(remotes, family, k)
          ensures FirstOfFamily(remotes, family) == Some(remotes[k].socket)
        {
          assert FirstSocket(rest, family, k - 1);
        }
        if k: nat :| FirstSocket(rest, family, k) { assert FirstSocket(remotes, family, k + 1); }
      }
    }
  }

  lemma {:induction false} FirstServedIsFirst(remotes: seq<Remote>, candidates: seq<Option<Ip>>)
    ensures forall i: nat :: FirstServable(remotes, candidates, i) ==> FirstServed(remotes, candidates) == candidates[i]
    ensures FirstServed(remotes, candidates).Some? ==> exists i: nat :: FirstServable(remotes, candidates, i)
  {
    if candidates != [] {
      var rest := candidates[1..];
      FirstServedIsFirst(remotes, rest);
      if candidates[0].Some? { FirstOfFamilyIsFirst(remotes, Family(candidates[0].value)); }
      if candidates[0].Some? && FirstOfFamily(remotes, Family(candidates[0].value)).Some? {
        assert FirstServable(remotes, candidates, 0);
      } else {
        forall i: nat | FirstServable(remotes, candidates, i)
          ensures FirstServed(remotes, candidates) == candidates[i]
        {
          ServableLater(remotes, candidates, i);
        }
        if i: nat :| FirstServable(remotes, rest, i) { ServableEarlier(remotes, candidates, i); }
      }
    }
  }

  lemma ServableLater(remotes: seq<Remote>, candidates: seq<Option<Ip>>, i: nat)
    requires FirstServable(remotes, candidates, i) && candidates != []
    requires candidates[0].Some? ==> forall r :: r in remotes ==> r.family != Family(candidates[0].value)
    ensures i > 0 && FirstServable(remotes, candidates[1..], i - 1)
  {
    var rest := candidates[1..];
    assert rest[i - 1] == candidates[i];
    forall j | 0 <= j < i - 1 && rest[j].Some?
      ensures forall r :: r in remotes ==> r.family != Family(rest[j].value)
    {
      assert rest[j] == candidates[j + 1];
    }
  }

  lemma ServableEarlier(remotes: seq<Remote>, candidates: seq<Option<Ip>>, i: nat)
    requires candidates != [] && FirstServable(remotes, candidates[1..], i)
    requires candidates[0].Some? ==> forall r :: r in remotes ==> r.family != Family(candidates[0].value)
    ensures FirstServable(remotes, candidates, i + 1)
  {
    var rest := candidates[1..];
    assert rest[i] == candidates[i + 1];
    forall j | 0 <= j < i + 1 && candidates[j].Some?
      ensures forall r :: r in remotes ==> r.family != Family(candidates[j].value)
    {
      if j > 0 { assert rest[j - 1] == candidates[j]; }
    }
  }

  /** Resolution and the choice of a socket together, over the candidates. */
  lemma ResolvedIsChosen(backend: Backend, kind: byte, host: seq<byte>, port: int, lookup: Resolver, ip: Ip,
                         via: Option<Socket>)
    requires Kind(kind, host)
    ensures Chosen(backend, Candidates(kind, host, lookup), ip, via)
            <==> Resolve(backend, Target(Named(kind, host), port), lookup) == Some(UdpAddr(ip, port))
                 && via == if backend.Direct? then None else FirstOfFamily(backend.remotes, Family(ip))
  {
    if backend.Tunnel? {
      var remotes, candidates := backend.remotes, Candidates(kind, host, lookup);
      FirstServedIsFirst(remotes, candidates);
      FirstServedIsServed(remotes, candidates);
      FirstOfFamilyIsFirst(remotes, Family(ip));
      ServedResolution(remotes, kind, host, port, lookup);
    }
  }

  lemma ServedResolution(remotes: seq<Remote>, kind: byte, host: seq<byte>, port: int, lookup: Resolver)
    requires Kind(kind, host)
    ensures var served := FirstServed(remotes, Candidates(kind, host, lookup));
            Resolve(Tunnel(remotes), Target(Named(kind, host), port), lookup)
            == if served.None? then None else Some(UdpAddr(served.value, port))
  {
    var candidates := Candidates(kind, host, lookup);
    if Named(kind, host).Address? { assert candidates[1..] == []; }
  }

  /** What is accepted carries a block, and how it reads is settled by its bytes. */
  lemma AcceptedCarries(bytes: seq<byte>) returns (kind: byte, host: seq<byte>, hi: byte, lo: byte, payload: seq<byte>)
    requires UdpTarget(bytes).Some?
    ensures Carries(bytes, kind, host, hi, lo, payload)
  {
    EncodeOfDecode(bytes[3..]);
    HostOfDecode(bytes[3..]);
    var d := DecodeAddress(bytes[3..]).value;
    var b := bytes[3..];
    kind, host, payload := b[0], d.addr.host.octets, b[d.used..];
    hi, lo := b[d.used - 2], b[d.used - 1];
    assert b[..d.used] == b[..d.used - 2] + [hi, lo];
    assert b[..d.used] == Block(kind, host, hi, lo);
    assert b == b[..d.used] + payload;
    assert bytes == bytes[..3] + b;
  }

  lemma CarriedIsRead(bytes: seq<byte>, kind: byte, host: seq<byte>, hi: byte, lo: byte, payload: seq<byte>)
    requires Carries(bytes, kind, host, hi, lo, payload)
    ensures UdpTarget(bytes) == Some(UdpRequest(Target(Named(kind, host), 256 * hi + lo), |bytes| - |payload|))
    ensures |payload| <= |bytes| && bytes[|bytes| - |payload|..] == payload
  {
    TargetsByBytes(bytes[..3], kind, host, hi, lo, payload);
  }

  /** What a datagram with a given block becomes. */
  lemma CarriedIsForwarded(backend: Backend, bytes: seq<byte>, kind: byte, host: seq<byte>, hi: byte, lo: byte,
                           payload: seq<byte>, lookup: Resolver, sent: Sent)
    requires Carries(bytes, kind, host, hi, lo, payload)
    ensures Forwarded(backend, bytes, lookup, true) == Some(sent)
            <==> sent.payload == payload && sent.to.port == PortOf(hi, lo)
                 && Chosen(backend, Candidates(kind, host, lookup), sent.to.ip, sent.via)
  {
    CarriedIsRead(bytes, kind, host, hi, lo, payload);
    ResolvedIsChosen(backend, kind, host, PortOf(hi, lo), lookup, sent.to.ip, sent.via);
    var to := Resolve(backend, Target(Named(kind, host), PortOf(hi, lo)), lookup);
    if to.Some? {
      ResolvedPort(backend, Target(Named(kind, host), PortOf(hi, lo)), lookup);
      ResolvedIsChosen(backend, kind, host, PortOf(hi, lo), lookup, to.value.ip, sent.via);
    }
  }

  lemma ResolvedPort(backend: Backend, target: Target, lookup: Resolver)
    requires Resolve(backend, target, lookup).Some?
    ensures Resolve(backend, target, lookup).value.port == target.port
  {
  }

  /** Exactly what a datagram of the pinned client becomes. */
  lemma ForwardedIff(backend: Backend, bytes: seq<byte>, lookup: Resolver, sendOk: bool, sent: Sent)
    ensures Forwarded(backend, bytes, lookup, sendOk) == Some(sent) <==> sendOk && Asks(backend, bytes, lookup, sent)
  {
    if Forwarded(backend, bytes, lookup, sendOk) == Some(sent) {
      var kind, host, hi, lo, payload := AcceptedCarries(bytes);
      CarriedIsForwarded(backend, bytes, kind, host, hi, lo, payload, lookup, sent);
      assert Carries(bytes, kind, host, hi, lo, sent.payload);
    }
    if sendOk && Asks(backend, bytes, lookup, sent) {
      var kind: byte, host: seq<byte>, hi: byte, lo: byte :|
        && Carries(bytes, kind, host, hi, lo, sent.payload)
        && sent.to.port == 256 * hi + lo
        && Chosen(backend, Candidates(kind, host, lookup), sent.to.ip, sent.via);
      CarriedIsForwarded(backend, bytes, kind, host, hi, lo, sent.payload, lookup, sent);
    }
  }

  // ---------------------------------------------------------------- whole runs

  /** The association after some events, with everything it has sent in both directions. */
  datatype Relay = Relay(peer: Option<UdpAddr>, out: seq<Sent>, back: seq<Reply>, open: bool)

  function Append<T>(s: seq<T>, x: Option<T>): seq<T> {
    match x
    case Some(v) => s + [v]
    case None => s
  }

  /** One event, as ClientDatagram and TargetDatagram handle it. */
  function After(backend: Backend, r: Relay, e: Event): Relay {
    if !r.open then r else
    match e
    case FromClient(src, bytes, lookup, sendOk) =>
      var peer := if r.peer.None? then src else r.peer.value;
      r.(peer := Some(peer),
         out := Append(r.out, if SamePeer(peer, src) then Forwarded(backend, bytes, lookup, sendOk) else None))
    case FromTarget(src, payload, writeOk) =>
      if r.peer.None? || !Usable(src.ip) then r
      else if !writeOk then r.(open := false)
      else r.(back := r.back + [Reply(r.peer.value, ReplyFrame(src, payload).value)])
  }

  function Run(backend: Backend, es: seq<Event>): Relay {
    if es == [] then Relay(None, [], [], true)
    else After(backend, Run(backend, es[..|es| - 1]), es[|es| - 1])
  }

  /** Nothing happens in an association that has shut down. */
  ghost predicate Legal(backend: Backend, es: seq<Event>) {
    forall i :: 0 <= i < |es| ==> Run(backend, es[..i]).open
  }

  /** Reference readings of an event sequence, given the pinned peer: who it is, what it should
      have sent, and what it should have been sent. */
  function FirstSource(es: seq<Event>): Option<UdpAddr> {
    if es == [] then None
    else if es[0].FromClient? then Some(es[0].src)
    else FirstSource(es[1..])
  }

  /** What an event of the pinned client asks to be sent, if anything. */
  ghost function Due(backend: Backend, e: Event, pin: UdpAddr): Option<Sent> {
    if e.FromClient? && SamePeer(pin, e.src) && e.sendOk && exists x :: Asks(backend, e.bytes, e.lookup, x)
    then var x :| Asks(backend, e.bytes, e.lookup, x); Some(x)
    else None
  }

  ghost function AllOf(due: seq<Option<Sent>>): seq<Sent> {
    if due == [] then [] else (if due[0].Some? then [due[0].value] else []) + AllOf(due[1..])
  }

  ghost function Outgoing(backend: Backend, es: seq<Event>, pin: UdpAddr): seq<Sent> {
    AllOf(seq(|es|, i requires 0 <= i < |es| => Due(backend, es[i], pin)))
  }

  function Returning(es: seq<Event>, pin: UdpAddr): seq<Reply> {
    if es == [] then []
    else
      var later := Returning(es[1..], pin);
      match es[0]
      case FromTarget(src, payload, writeOk) =>
        if Usable(src.ip) && writeOk then [Reply(pin, ReplyFrame(src, payload).value)] + later else later
      case FromClient(_, _, _, _) => later
  }

  /** The part of a run from the first client datagram on; replies before it are unsolicited. */
  function SincePinned(es: seq<Event>): seq<Event> {
    if es == [] || es[0].FromClient? then es else SincePinned(es[1..])
  }

  lemma {:induction false} AllOfAppend(due: seq<Option<Sent>>, x: Option<Sent>)
    ensures AllOf(due + [x]) == Append(AllOf(due), x)
  {
    if due == [] {
      assert [x][1..] == [];
      assert due + [x] == [x];
    } else {
      AllOfAppend(due[1..], x);
      assert (due + [x])[1..] == due[1..] + [x];
    }
  }

  lemma OutgoingAppend(backend: Backend, es: seq<Event>, e: Event, pin: UdpAddr)
    ensures Outgoing(backend, es + [e], pin) == Append(Outgoing(backend, es, pin), Due(backend, e, pin))
  {
    var before := seq(|es|, i requires 0 <= i < |es| => Due(backend, es[i], pin));
    var after := seq(|es + [e]|, i requires 0 <= i < |es + [e]| => Due(backend, (es + [e])[i], pin));
    assert after == before + [Due(backend, e, pin)];
    AllOfAppend(before, Due(backend, e, pin));
  }

  lemma {:induction false} ReturningAppend(es: seq<Event>, e: Event, pin: UdpAddr)
    ensures Returning(es + [e], pin) == Returning(es, pin) + Returning([e], pin)
  {
    if es == [] {
      assert [] + [e] == [e];
    } else {
      ReturningAppend(es[1..], e, pin);
      assert (es + [e])[1..] == es[1..] + [e];
    }
  }

  lemma {:induction false} PinAppend(es: seq<Event>, e: Event)
    ensures FirstSource(es + [e]) == if FirstSource(es).Some? then FirstSource(es) else FirstSource([e])
    ensures SincePinned(es + [e]) == if FirstSource(es).Some? then SincePinned(es) + [e] else SincePinned([e])
    ensures FirstSource(es).None? ==> SincePinned(es) == []
    ensures FirstSource(es).None? ==> forall x :: x in es ==> x.FromTarget?
  {
    if es == [] {
      assert [] + [e] == [e];
    } else if !es[0].FromClient? {
      PinAppend(es[1..], e);
      assert (es + [e])[1..] == es[1..] + [e];
    }
  }

  /** Over every run: the peer is the source of the first client datagram and never changes;
      what was sent to targets is, in order, the image of that peer's datagrams that are well
      formed and whose resolution and send succeeded; and what went back is, in order, every
      usable target datagram since then, all of it to that peer. */
  lemma {:induction false} RelayedExactly(backend: Backend, es: seq<Event>)
    requires Legal(backend, es)
    ensures Run(backend, es).peer == FirstSource(es)
    ensures FirstSource(es).None? ==> Run(backend, es).out == [] && Run(backend, es).back == []
    ensures FirstSource(es).Some? ==>
      Run(backend, es).out == Outgoing(backend, es, FirstSource(es).value)
      && Run(backend, es).back == Returning(SincePinned(es), FirstSource(es).value)
    decreases |es|
  {
    if es == [] { return; }
    var before, e := es[..|es| - 1], es[|es| - 1];
    assert es == before + [e];
    forall i | 0 <= i < |before| ensures Run(backend, before[..i]).open {
      assert before[..i] == es[..i];
    }
    RelayedExactly(backend, before);
    PinAppend(before, e);
    if FirstSource(before).Some? {
      OneMore(backend, before, e);
    } else if e.FromClient? {
      OutgoingAppend(backend, before, e, e.src);
      DueIsForwarded(backend, e, e.src);
      NothingOutgoing(backend, before, e.src);
    }
  }

  /** The reference reading of one datagram is what the association sends. */
  lemma DueIsForwarded(backend: Backend, e: Event, pin: UdpAddr)
    requires e.FromClient?
    ensures Due(backend, e, pin) == if SamePeer(pin, e.src) then Forwarded(backend, e.bytes, e.lookup, e.sendOk)
            else None
  {
    var sent := Forwarded(backend, e.bytes, e.lookup, e.sendOk);
    if sent.Some? {
      ForwardedIff(backend, e.bytes, e.lookup, e.sendOk, sent.value);
    }
    forall x | Asks(backend, e.bytes, e.lookup, x) && e.sendOk ensures sent == Some(x) {
      ForwardedIff(backend, e.bytes, e.lookup, e.sendOk, x);
    }
  }

  /** One more event once the peer is pinned. */
  lemma OneMore(backend: Backend, before: seq<Event>, e: Event)
    requires Run(backend, before).open && FirstSource(before).Some?
    requires Run(backend, before).peer == FirstSource(before)
    requires Run(backend, before).out == Outgoing(backend, before, FirstSource(before).value)
    requires Run(backend, before).back == Returning(SincePinned(before), FirstSource(before).value)
    ensures var after := After(backend, Run(backend, before), e);
            after.peer == FirstSource(before)
            && after.out == Outgoing(backend, before + [e], FirstSource(before).value)
            && after.back == Returning(SincePinned(before) + [e], FirstSource(before).value)
  {
    var pin := FirstSource(before).value;
    OutgoingAppend(backend, before, e, pin);
    ReturningAppend(SincePinned(before), e, pin);
    if e.FromClient? { DueIsForwarded(backend, e, pin); }
    assert [e][1..] == [];
  }

  lemma {:induction false} NothingOutgoing(backend: Backend, es: seq<Event>, pin: UdpAddr)
    requires forall x :: x in es ==> x.FromTarget?
    ensures Outgoing(backend, es, pin) == []
  {
    if es != [] {
      var before, e := es[..|es| - 1], es[|es| - 1];
      assert es == before + [e] && e in es;
      NothingOutgoing(backend, before, pin);
      OutgoingAppend(backend, before, e, pin);
    }
  }

  /** The pin survives whatever follows. */
  lemma {:induction false} PeerNeverChanges(backend: Backend, es: seq<Event>, i: nat)
    requires i <= |es| && Run(backend, es[..i]).peer.Some?
    ensures Run(backend, es).peer == Run(backend, es[..i]).peer
    decreases |es|
  {
    if i == |es| {
      assert es[..i] == es;
    } else {
      assert es[..|es| - 1][..i] == es[..i];
      PeerNeverChanges(backend, es[..|es| - 1], i);
    }
  }

  /** In a tunnel, resolution never leaves a datagram without a socket, and every datagram
      sent leaves by a socket of its target's address family. */
  lemma TunnelFamilyMatches(remotes: seq<Remote>, bytes: seq<byte>, lookup: Resolver)
    ensures var req := UdpTarget(bytes);
            req.Some? && Resolve(Tunnel(remotes), req.value.target, lookup).Some?
            ==> FirstOfFamily(remotes, Family(Resolve(Tunnel(remotes), req.value.target, lookup).value.ip)).Some?
    ensures var sent := Forwarded(Tunnel(remotes), bytes, lookup, true);
            sent.Some? ==> sent.value.via.Some? && Serves(remotes, sent.value.via.value, Family(sent.value.to.ip))
  {
    var req := UdpTarget(bytes);
    if req.Some? && req.value.target.host.Domain? && lookup(req.value.target.host.name).Found? {
      FirstServedIsServed(remotes, lookup(req.value.target.host.name).addresses);
    }
    var sent := Forwarded(Tunnel(remotes), bytes, lookup, true);
    if sent.Some? {
      FirstOfFamilyServes(remotes, Family(sent.value.to.ip));
    }
  }

  /** The same over whole runs. */
  lemma {:induction false} TunnelFamilyOverRuns(remotes: seq<Remote>, es: seq<Event>)
    ensures forall x :: x in Run(Tunnel(remotes), es).out
                        ==> x.via.Some? && Serves(remotes, x.via.value, Family(x.to.ip))
    decreases |es|
  {
    if es != [] {
      TunnelFamilyOverRuns(remotes, es[..|es| - 1]);
      var e := es[|es| - 1];
      if e.FromClient? {
        TunnelFamilyMatches(remotes, e.bytes, e.lookup);
      }
    }
  }
}

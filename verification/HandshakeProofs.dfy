/** What the two handshakes promise: the streaming one reads back every client encoding and
    nothing else, and the message-at-a-time one reaches the same targets. */
module HandshakeProofs {
  import opened Basics
  import opened Addresses
  import opened Socks5Wire
  import opened Socks5Decoders
  import opened Handshake

  // ---------------------------------------------------------------- the streaming handshake

  /** What the client sends in front of its request. */
  function Hello(cfg: Config, methods: seq<byte>, user: seq<byte>, pass: seq<byte>): seq<byte>
    requires |methods| <= 255 && |user| <= 255 && |pass| <= 255
  {
    if RequireAuth(cfg) then Greeting(methods) + Credentials(user, pass) else Greeting(methods)
  }

  /** What a client must send in that place to be let in. */
  predicate Welcome(cfg: Config, methods: seq<byte>, user: seq<byte>, pass: seq<byte>) {
    Selected(cfg) in methods && (RequireAuth(cfg) ==> user == cfg.username && pass == cfg.password)
  }

  lemma GreetingIsRead(cfg: Config, methods: seq<byte>, tail: seq<byte>, writes: nat)
    requires 1 <= |methods| <= 255 && writes > 0
    ensures var v := MethodChoice(Greeting(methods) + tail, cfg, writes);
            && v.ok == (Selected(cfg) in methods)
            && (v.ok ==> v.used == |Greeting(methods)|)
            && v.reply == [0x05, if v.ok then Selected(cfg) else 0xff]
  {
    var input := Greeting(methods) + tail;
    assert input[2..2 + |methods|] == methods;
  }

  lemma CredentialsAreRead(cfg: Config, user: seq<byte>, pass: seq<byte>, tail: seq<byte>, writes: nat)
    requires 1 <= |user| <= 255 && |pass| <= 255 && writes > 0
    ensures var v := Authentication(Credentials(user, pass) + tail, cfg, writes);
            && v.ok == (user == cfg.username && pass == cfg.password)
            && (v.ok ==> v.used == |Credentials(user, pass)|)
            && v.reply == [0x01, if v.ok then 0x00 else 0x01]
  {
    var input := Credentials(user, pass) + tail;
    assert input[2..2 + |user|] == user;
    assert input[2 + |user|] == |pass|;
    assert input[3 + |user|..3 + |user| + |pass|] == pass;
  }

  lemma RequestIsRead(command: byte, addr: WireAddr, rest: seq<byte>)
    requires ValidAddr(addr)
    ensures RequestOf(RequestBytes(command, addr) + rest)
            == if addr.host == Name([]) then None
               else Some(Framed(Request(command, TargetOf(addr)), |RequestBytes(command, addr)|))
  {
    var input := RequestBytes(command, addr) + rest;
    assert input[3..] == AddressBytes(addr) + rest;
    DecodeOfEncode(addr, rest);
  }

  /** The round trip. On every client encoding the handshake succeeds exactly when the needed
      method was offered and, where demanded, both credentials match; it then consumes exactly
      the hello, and the request that follows is read back whole, leaving what comes after it. */
  lemma StreamingRoundTrip(cfg: Config, methods: seq<byte>, user: seq<byte>, pass: seq<byte>,
                           command: byte, addr: WireAddr, rest: seq<byte>, writes: nat)
    requires 1 <= |methods| <= 255 && 1 <= |user| <= 255 && |pass| <= 255 && writes >= 2
    requires ValidAddr(addr) && addr.host != Name([])
    ensures var hello := Hello(cfg, methods, user, pass);
            var request := RequestBytes(command, addr);
            var input := hello + request + rest;
            var v := Negotiation(input, cfg, writes);
            (v.ok <==> Welcome(cfg, methods, user, pass))
            && (v.ok ==> v.used == |hello|
                         && RequestOf(input[v.used..])
                            == Some(Framed(Request(command, TargetOf(addr)), |request|))
                         && input[v.used + |request|..] == rest)
  {
    var hello := Hello(cfg, methods, user, pass);
    var request := RequestBytes(command, addr);
    var input := hello + request + rest;
    NegotiationOfHello(cfg, methods, user, pass, request + rest, writes);
    assert input == hello + (request + rest);
    assert input[|hello|..] == request + rest;
    RequestIsRead(command, addr, rest);
  }

  lemma NegotiationOfHello(cfg: Config, methods: seq<byte>, user: seq<byte>, pass: seq<byte>,
                           tail: seq<byte>, writes: nat)
    requires 1 <= |methods| <= 255 && 1 <= |user| <= 255 && |pass| <= 255 && writes >= 2
    ensures var hello := Hello(cfg, methods, user, pass);
            var v := Negotiation(hello + tail, cfg, writes);
            && (v.ok <==> Welcome(cfg, methods, user, pass))
            && (v.ok ==> v.used == |hello|)
            && v.reply == if Selected(cfg) !in methods then [0x05, 0xff]
                          else if RequireAuth(cfg) then [0x05, 0x02, 0x01, if v.ok then 0x00 else 0x01]
                          else [0x05, 0x00]
  {
    var hello := Hello(cfg, methods, user, pass);
    var after := hello[|Greeting(methods)|..] + tail;
    assert hello + tail == Greeting(methods) + after;
    GreetingIsRead(cfg, methods, after, writes);
    if RequireAuth(cfg) {
      assert after == Credentials(user, pass) + tail;
      assert (hello + tail)[|Greeting(methods)|..] == after;
      CredentialsAreRead(cfg, user, pass, tail, writes - 1);
      var last := if user == cfg.username && pass == cfg.password then 0x00 else 0x01;
      assert [0x05, 0x02] + [0x01, last] == [0x05, 0x02, 0x01, last];
    }
  }

  /** The whole of the negotiation in bytes: which method is asked for, and what each client that
      completes its messages is answered. */
  lemma NegotiationByBytes(cfg: Config, methods: seq<byte>, user: seq<byte>, pass: seq<byte>,
                           tail: seq<byte>, writes: nat)
    requires 1 <= |methods| <= 255 && 1 <= |user| <= 255 && |pass| <= 255 && writes >= 2
    ensures var asked := cfg.username != [] && cfg.password != [];
            var greeting: seq<byte> := [5, |methods|] + methods;
            var login: seq<byte> := [1, |user|] + user + [|pass|] + pass;
            var v := Negotiation((if asked then greeting + login else greeting) + tail, cfg, writes);
            if (if asked then 2 else 0) !in methods then !v.ok && v.reply == [5, 0xff]
            else if !asked then v.ok && v.reply == [5, 0]
            else if user == cfg.username && pass == cfg.password then v.ok && v.reply == [5, 2, 1, 0]
            else !v.ok && v.reply == [5, 2, 1, 1]
  {
    NegotiationOfHello(cfg, methods, user, pass, tail, writes);
  }

  /** Nobody is let in whose replies cannot be written. */
  lemma LetInMeansAnswered(input: seq<byte>, cfg: Config, writes: nat)
    requires Negotiation(input, cfg, writes).ok
    ensures writes >= if cfg.username != [] && cfg.password != [] then 2 else 1
  {
  }

  /** The streaming decoder against the two that work over a buffer: with the version byte and a
      zero reserved byte in place it accepts what the datagram decoder accepts, and port zero
      besides; the targets are the same and so is the end of the address. */
  lemma StreamAndBufferAgree(buf: seq<byte>)
    requires |buf| >= 3 && buf[0] == 5 && buf[2] == 0
    ensures UdpTarget(buf).Some? <==> RequestOf(buf).Some? && RequestOf(buf).value.request.target.port != 0
    ensures UdpTarget(buf).Some? ==>
              UdpTarget(buf).value == UdpRequest(RequestOf(buf).value.request.target, RequestOf(buf).value.used)
    ensures RequestOf(buf).Some? && RequestOf(buf).value.request.target.port != 0 ==>
              RequestTarget(buf) == Parsed(RequestOf(buf).value.request.target)
  {
    DatagramAndRequestAgree(buf);
  }

  /** The converse: whatever stream the handshake accepts starts with a client encoding that
      offers the needed method and carries the configured credentials. */
  lemma OnlyEncodingsAreAccepted(input: seq<byte>, cfg: Config, writes: nat) returns (methods: seq<byte>)
    requires Negotiation(input, cfg, writes).ok
    ensures 1 <= |methods| <= 255 && Selected(cfg) in methods
    ensures RequireAuth(cfg) ==> |cfg.username| <= 255 && |cfg.password| <= 255
    ensures Negotiation(input, cfg, writes).used <= |input|
    ensures input[..Negotiation(input, cfg, writes).used]
            == if RequireAuth(cfg) then Hello(cfg, methods, cfg.username, cfg.password) else Greeting(methods)
  {
    var n: int := input[1];
    methods := input[2..2 + n];
    assert input[..2 + n] == Greeting(methods);
    if RequireAuth(cfg) {
      var tail := input[2 + n..];
      var used := AcceptedCredentials(tail, cfg, writes - 1);
      assert input[..2 + n + used] == input[..2 + n] + tail[..used];
    }
  }

  lemma AcceptedCredentials(tail: seq<byte>, cfg: Config, writes: nat) returns (used: nat)
    requires Authentication(tail, cfg, writes).ok
    ensures used == Authentication(tail, cfg, writes).used <= |tail|
    ensures |cfg.username| <= 255 && |cfg.password| <= 255
    ensures tail[..used] == Credentials(cfg.username, cfg.password)
  {
    var ulen: int := tail[1];
    var plen: int := tail[2 + ulen];
    used := 3 + ulen + plen;
    assert tail[..used] == tail[..2] + tail[2..2 + ulen] + [tail[2 + ulen]] + tail[3 + ulen..used];
  }

  // ---------------------------------------------------------------- the two front ends

  /** How the handshake part of HandleSOCKS5 ends. Crashed is a Go index panic. */
  datatype Outcome = Dropped | Refused(code: byte) | Associate | Connect(target: Target) | Crashed

  function H2Outcome(input: seq<byte>, cfg: Config, allowUdp: bool, writes: nat): Outcome {
    var v := Negotiation(input, cfg, writes);
    if !v.ok || v.used > |input| then Dropped
    else H2RequestOutcome(input[v.used..], allowUdp)
  }

  function H2RequestOutcome(input: seq<byte>, allowUdp: bool): Outcome {
    match RequestOf(input)
    case None => Refused(0x08)
    case Some(f) =>
      if f.request.command == CMD_CONNECT then
        if f.request.target.port == 0 then Refused(0x08) else Connect(f.request.target)
      else if f.request.command == CMD_UDP_ASSOCIATE && allowUdp then Associate
      else Refused(0x07)
  }

  /** The refusal of sendSocks5Err, if it can still be written; every other outcome leaves the
      last word to what follows. */
  function LastReply(o: Outcome, writes: nat): seq<byte> {
    if o.Refused? && writes > 0 then [0x05, o.code, 0, 1, 0, 0, 0, 0, 0, 0] else []
  }

  /** All that the HTTP/2 handshake writes. */
  function H2Reply(input: seq<byte>, cfg: Config, allowUdp: bool, writes: nat): seq<byte> {
    var v := Negotiation(input, cfg, writes);
    v.reply
    + if v.ok && writes >= Rounds(cfg) then LastReply(H2Outcome(input, cfg, allowUdp, writes), writes - Rounds(cfg))
      else []
  }

  method Refuse(conn: Conn, code: byte) returns (o: Outcome)
    modifies conn`sent, conn`writesLeft
    ensures o == Refused(code) && conn.sent == old(conn.sent) + LastReply(o, old(conn.writesLeft))
  {
    var _ := conn.Write([0x05, code, 0, 1, 0, 0, 0, 0, 0, 0]);
    o := Refused(code);
  }

  /** The HTTP/2 client's HandleSOCKS5 up to the dial. */
  method ServeH2(conn: Conn, cfg: Config, allowUdp: bool) returns (o: Outcome)
    requires conn.Valid()
    modifies conn
    ensures o == H2Outcome(old(conn.Stream()), cfg, allowUdp, old(conn.writesLeft))
    ensures conn.sent == old(conn.sent) + H2Reply(old(conn.Stream()), cfg, allowUdp, old(conn.writesLeft))
  {
    var ok := Negotiate(conn, cfg);
    if !ok { return Dropped; }
    o := ServeH2Request(conn, allowUdp);
  }

  method ServeH2Request(conn: Conn, allowUdp: bool) returns (o: Outcome)
    requires conn.Valid()
    modifies conn
    ensures o == H2RequestOutcome(old(conn.Stream()), allowUdp)
    ensures conn.sent == old(conn.sent) + LastReply(o, old(conn.writesLeft))
  {
    var request := ReadRequest(conn);
    if request.None? {
      o := Refuse(conn, 0x08);
    } else if request.value.command == CMD_CONNECT {
      if request.value.target.port == 0 {
        o := Refuse(conn, 0x08);
      } else {
        o := Connect(request.value.target);
      }
    } else if request.value.command == CMD_UDP_ASSOCIATE && allowUdp {
      o := Associate;
    } else {
      o := Refuse(conn, 0x07);
    }
  }

  /** The credentials message as the HTTP/3 client reads it: whole, in one read. */
  predicate WholeCredentials(msg: seq<byte>) {
    |msg| >= 2 && msg[0] == 0x01 && LoginAt(msg).Some?
  }

  predicate Matches(msg: seq<byte>, cfg: Config)
    requires WholeCredentials(msg)
  {
    LoginAt(msg).value.user == cfg.username && LoginAt(msg).value.pass == cfg.password
  }

  predicate MessageAuthorises(msg: seq<byte>, cfg: Config) {
    WholeCredentials(msg) && Matches(msg, cfg)
  }

  function H3Outcome(chunks: seq<seq<byte>>, cfg: Config, allowUdp: bool, writes: nat): Outcome {
    if chunks == [] || writes == 0 then Dropped
    else
      var hello, later := FirstRead(chunks, H3_BUFFER), AfterRead(chunks, H3_BUFFER);
      if |hello| < 2 || hello[0] != 0x05 then Dropped
      else if !RequireAuth(cfg) then H3RequestOutcome(later, allowUdp)
      else if later == [] || !MessageAuthorises(FirstRead(later, H3_BUFFER), cfg) then Dropped
      else H3RequestOutcome(AfterRead(later, H3_BUFFER), allowUdp)
  }

  /** All that the HTTP/3 handshake writes; it does not mind failing to confirm credentials. */
  function H3Reply(chunks: seq<seq<byte>>, cfg: Config, allowUdp: bool, writes: nat): seq<byte> {
    if chunks == [] || writes == 0 then []
    else
      var hello, later := FirstRead(chunks, H3_BUFFER), AfterRead(chunks, H3_BUFFER);
      if |hello| < 2 || hello[0] != 0x05 then []
      else if !RequireAuth(cfg) then [0x05, 0x00] + LastReply(H3RequestOutcome(later, allowUdp), writes - 1)
      else [0x05, 0x02] + H3AuthReply(later, cfg, allowUdp, writes - 1)
  }

  function H3AuthReply(chunks: seq<seq<byte>>, cfg: Config, allowUdp: bool, writes: nat): seq<byte> {
    if chunks == [] || !WholeCredentials(FirstRead(chunks, H3_BUFFER)) then []
    else if !Matches(FirstRead(chunks, H3_BUFFER), cfg) then IfWritable(writes, 1, [0x01, 0x01])
    else
      IfWritable(writes, 1, [0x01, 0x00])
      + LastReply(H3RequestOutcome(AfterRead(chunks, H3_BUFFER), allowUdp), if writes > 0 then writes - 1 else 0)
  }

  function H3RequestOutcome(chunks: seq<seq<byte>>, allowUdp: bool): Outcome {
    if chunks == [] then Dropped
    else
      var data := FirstRead(chunks, H3_BUFFER);
      if |data| < 4 then Refused(0x07)
      else if data[1] == CMD_CONNECT then
        match RequestTarget(data)
        case Parsed(t) => Connect(t)
        case Rejected => Refused(0x08)
        case Panicked => Crashed
      else if data[1] == CMD_UDP_ASSOCIATE && allowUdp then Associate
      else Refused(0x07)
  }

  lemma WrittenInTurn(before: seq<byte>, first: seq<byte>, second: seq<byte>)
    ensures before + first + second == before + (first + second)
  {
  }

  /** The HTTP/3 client's HandleSOCKS5 up to the resolution of the target. */
  method ServeH3(conn: Conn, cfg: Config, allowUdp: bool) returns (o: Outcome)
    requires conn.Valid()
    modifies conn
    ensures o == H3Outcome(old(conn.incoming), cfg, allowUdp, old(conn.writesLeft))
    ensures conn.sent == old(conn.sent) + H3Reply(old(conn.incoming), cfg, allowUdp, old(conn.writesLeft))
  {
    var data := conn.Read(H3_BUFFER);
    if data.None? { return Dropped; }
    if |data.value| < 2 || data.value[0] != 0x05 { return Dropped; }
    if RequireAuth(cfg) {
      var written := conn.Write([0x05, 0x02]);
      if !written { return Dropped; }
      ghost var chunks, left := conn.incoming, conn.writesLeft;
      o := ServeH3Credentials(conn, cfg, allowUdp);
      WrittenInTurn(old(conn.sent), [0x05, 0x02], H3AuthReply(chunks, cfg, allowUdp, left));
    } else {
      var written := conn.Write([0x05, 0x00]);
      if !written { return Dropped; }
      ghost var left := conn.writesLeft;
      o := ServeH3Request(conn, allowUdp);
      WrittenInTurn(old(conn.sent), [0x05, 0x00], LastReply(o, left));
    }
  }

  method ServeH3Credentials(conn: Conn, cfg: Config, allowUdp: bool) returns (o: Outcome)
    requires conn.Valid()
    modifies conn
    ensures var chunks := old(conn.incoming);
            o == if chunks == [] || !MessageAuthorises(FirstRead(chunks, H3_BUFFER), cfg) then Dropped
                 else H3RequestOutcome(AfterRead(chunks, H3_BUFFER), allowUdp)
    ensures conn.sent == old(conn.sent) + H3AuthReply(old(conn.incoming), cfg, allowUdp, old(conn.writesLeft))
  {
    var data := conn.Read(H3_BUFFER);
    if data.None? { return Dropped; }
    var authData := data.value;
    if |authData| < 2 || authData[0] != 0x01 { return Dropped; }
    var ulen: int := authData[1];
    if |authData| < 2 + ulen + 1 { return Dropped; }
    var plen: int := authData[2 + ulen];
    if |authData| < 2 + ulen + 1 + plen { return Dropped; }
    if authData[2..2 + ulen] != cfg.username || authData[2 + ulen + 1..2 + ulen + 1 + plen] != cfg.password {
      var _ := conn.Write([0x01, 0x01]);
      return Dropped;
    }
    var _ := conn.Write([0x01, 0x00]);
    ghost var before, left := conn.sent, conn.writesLeft;
    o := ServeH3Request(conn, allowUdp);
    assert conn.sent == before + LastReply(o, left);
  }

  method ServeH3Request(conn: Conn, allowUdp: bool) returns (o: Outcome)
    requires conn.Valid()
    modifies conn
    ensures o == H3RequestOutcome(old(conn.incoming), allowUdp)
    ensures conn.sent == old(conn.sent) + LastReply(o, old(conn.writesLeft))
  {
    var data := conn.Read(H3_BUFFER);
    if data.None? { return Dropped; }
    if |data.value| < 4 {
      o := Refuse(conn, 0x07);
    } else if data.value[1] == CMD_CONNECT {
      var parsed := ParseSocks5Addr(data.value);
      match parsed {
        case Parsed(t) => o := Connect(t);
        case Rejected => o := Refuse(conn, 0x08);
        case Panicked => o := Crashed;
      }
    } else if data.value[1] == CMD_UDP_ASSOCIATE && allowUdp {
      o := Associate;
    } else {
      o := Refuse(conn, 0x07);
    }
  }

  // ---------------------------------------------------------------- agreement

  /** A client that sends each message in one piece. */
  function Messages(cfg: Config, methods: seq<byte>, user: seq<byte>, pass: seq<byte>,
                    command: byte, addr: WireAddr): seq<seq<byte>>
    requires |methods| <= 255 && |user| <= 255 && |pass| <= 255 && ValidAddr(addr)
  {
    if RequireAuth(cfg) then [Greeting(methods), Credentials(user, pass), RequestBytes(command, addr)]
    else [Greeting(methods), RequestBytes(command, addr)]
  }

  lemma MessagesFlattened(cfg: Config, methods: seq<byte>, user: seq<byte>, pass: seq<byte>,
                          command: byte, addr: WireAddr)
    requires |methods| <= 255 && |user| <= 255 && |pass| <= 255 && ValidAddr(addr)
    ensures Flatten(Messages(cfg, methods, user, pass, command, addr))
            == Hello(cfg, methods, user, pass) + RequestBytes(command, addr) + []
  {
    var g, c, r := Greeting(methods), Credentials(user, pass), RequestBytes(command, addr);
    assert Flatten([r]) == r + [];
    assert [c, r][1..] == [r] && [g, r][1..] == [r] && [g, c, r][1..] == [c, r];
    assert Flatten([c, r]) == c + Flatten([r]);
    assert Flatten([g, r]) == g + Flatten([r]);
    assert Flatten([g, c, r]) == g + Flatten([c, r]);
  }

  /** Where authentication is asked for, the two longest strings there are. */
  predicate TooLong(cfg: Config, user: seq<byte>, pass: seq<byte>) {
    RequireAuth(cfg) && |user| == 255 && |pass| == 255
  }

  predicate Trusted(cfg: Config, user: seq<byte>, pass: seq<byte>) {
    RequireAuth(cfg) ==> user == cfg.username && pass == cfg.password
  }

  /** What the HTTP/2 handshake decides and writes, for every command and every client that
      completes its messages. Command 1 is CONNECT and 3 is UDP ASSOCIATE. */
  lemma H2Side(cfg: Config, methods: seq<byte>, user: seq<byte>, pass: seq<byte>,
               command: byte, addr: WireAddr, allowUdp: bool, writes: nat)
    requires 1 <= |methods| <= 255 && 1 <= |user| <= 255 && |pass| <= 255 && ValidAddr(addr) && writes >= 2
    ensures var o := H2Outcome(Flatten(Messages(cfg, methods, user, pass, command, addr)), cfg, allowUdp, writes);
            o == if !Welcome(cfg, methods, user, pass) then Dropped
                 else if addr.host == Name([]) then Refused(8)
                 else if command == 1 then if addr.port == 0 then Refused(8) else Connect(TargetOf(addr))
                 else if command == 3 && allowUdp then Associate
                 else Refused(7)
    ensures var o := H2Outcome(Flatten(Messages(cfg, methods, user, pass, command, addr)), cfg, allowUdp, writes);
            var asked := cfg.username != [] && cfg.password != [];
            H2Reply(Flatten(Messages(cfg, methods, user, pass, command, addr)), cfg, allowUdp, writes)
            == if (if asked then 2 else 0) !in methods then [5, 0xff]
               else if asked && o.Dropped? then [5, 2, 1, 1]
               else (if asked then [5, 2, 1, 0] else [5, 0])
                    + (if o.Refused? && (asked ==> writes > 2) then [5, o.code, 0, 1, 0, 0, 0, 0, 0, 0] else [])
  {
    var hello, request := Hello(cfg, methods, user, pass), RequestBytes(command, addr);
    MessagesFlattened(cfg, methods, user, pass, command, addr);
    NegotiationOfHello(cfg, methods, user, pass, request + [], writes);
    assert hello + request + [] == hello + (request + []);
    assert (hello + (request + []))[|hello|..] == request + [];
    RequestIsRead(command, addr, []);
  }

  lemma H3ReadsRequest(command: byte, addr: WireAddr, allowUdp: bool)
    requires ValidAddr(addr)
    ensures H3RequestOutcome([RequestBytes(command, addr)], allowUdp)
            == if command == 1 then if addr.port == 0 then Refused(8) else Connect(TargetOf(addr))
               else if command == 3 && allowUdp then Associate
               else Refused(7)
  {
    var r := RequestBytes(command, addr);
    assert r[3..] == AddressBytes(addr) + [];
    DecodeOfEncode(addr, []);
  }

  lemma H3ReadsCredentials(cfg: Config, user: seq<byte>, pass: seq<byte>)
    requires 1 <= |user| <= 255 && |pass| <= 255
    ensures var msg := FirstRead([Credentials(user, pass)], H3_BUFFER);
            && (WholeCredentials(msg) <==> !(|user| == 255 && |pass| == 255))
            && (WholeCredentials(msg) ==> (Matches(msg, cfg) <==> user == cfg.username && pass == cfg.password))
  {
    var c := Credentials(user, pass);
    assert c[2..2 + |user|] == user;
    assert c[2 + |user|] == |pass|;
    assert c[3 + |user|..3 + |user| + |pass|] == pass;
    if |c| <= H3_BUFFER { assert FirstRead([c], H3_BUFFER) == c; }
  }

  /** What the HTTP/3 handshake decides and writes. It never looks at the methods offered: with the
      right credentials, or none asked for, a client is served whatever it offered. */
  lemma H3Side(cfg: Config, methods: seq<byte>, user: seq<byte>, pass: seq<byte>,
               command: byte, addr: WireAddr, allowUdp: bool, writes: nat)
    requires 1 <= |methods| <= 255 && 1 <= |user| <= 255 && |pass| <= 255 && ValidAddr(addr) && writes > 0
    ensures var o := H3Outcome(Messages(cfg, methods, user, pass, command, addr), cfg, allowUdp, writes);
            o == if !Trusted(cfg, user, pass) || TooLong(cfg, user, pass) then Dropped
                 else if command == 1 then if addr.port == 0 then Refused(8) else Connect(TargetOf(addr))
                 else if command == 3 && allowUdp then Associate
                 else Refused(7)
    ensures var o := H3Outcome(Messages(cfg, methods, user, pass, command, addr), cfg, allowUdp, writes);
            var asked := cfg.username != [] && cfg.password != [];
            (asked ==> writes >= 2) ==>
              H3Reply(Messages(cfg, methods, user, pass, command, addr), cfg, allowUdp, writes)
              == if asked && TooLong(cfg, user, pass) then [5, 2]
                 else if asked && o.Dropped? then [5, 2, 1, 1]
                 else (if asked then [5, 2, 1, 0] else [5, 0])
                      + (if o.Refused? && writes > (if asked then 2 else 1) then [5, o.code, 0, 1, 0, 0, 0, 0, 0, 0]
                         else [])
  {
    if RequireAuth(cfg) {
      H3SideAsked(cfg, methods, user, pass, command, addr, allowUdp, writes);
    } else {
      var g, r := Greeting(methods), RequestBytes(command, addr);
      H3ReadsRequest(command, addr, allowUdp);
      assert AfterRead([g, r], H3_BUFFER) == [r];
    }
  }

  /** The same for a client asked for credentials. */
  lemma H3SideAsked(cfg: Config, methods: seq<byte>, user: seq<byte>, pass: seq<byte>,
                    command: byte, addr: WireAddr, allowUdp: bool, writes: nat)
    requires 1 <= |methods| <= 255 && 1 <= |user| <= 255 && |pass| <= 255 && ValidAddr(addr) && writes > 0
    requires RequireAuth(cfg)
    ensures var messages := Messages(cfg, methods, user, pass, command, addr);
            var o := H3Outcome(messages, cfg, allowUdp, writes);
            && o == (if !Trusted(cfg, user, pass) || TooLong(cfg, user, pass) then Dropped
                     else H3RequestOutcome([RequestBytes(command, addr)], allowUdp))
            && (writes >= 2 ==>
                  H3Reply(messages, cfg, allowUdp, writes)
                  == if TooLong(cfg, user, pass) then [5, 2]
                     else if !Trusted(cfg, user, pass) then [5, 2, 1, 1]
                     else [5, 2, 1, 0] + LastReply(o, writes - 2))
    ensures H3RequestOutcome([RequestBytes(command, addr)], allowUdp)
            == if command == 1 then if addr.port == 0 then Refused(8) else Connect(TargetOf(addr))
               else if command == 3 && allowUdp then Associate
               else Refused(7)
  {
    var g, c, r := Greeting(methods), Credentials(user, pass), RequestBytes(command, addr);
    H3ReadsRequest(command, addr, allowUdp);
    H3ReadsCredentials(cfg, user, pass);
    assert AfterRead([g, c, r], H3_BUFFER) == [c, r];
    assert FirstRead([c, r], H3_BUFFER) == FirstRead([c], H3_BUFFER);
    if |c| <= H3_BUFFER {
      assert AfterRead([c, r], H3_BUFFER) == [r];
      var o := H3RequestOutcome([r], allowUdp);
      assert [5, 2] + [1, 1] == [5, 2, 1, 1];
      if writes >= 2 {
        assert [5, 2] + ([1, 0] + LastReply(o, writes - 2)) == [5, 2, 1, 0] + LastReply(o, writes - 2);
      }
    }
  }

  /** The streaming handshake connects exactly the welcome clients that ask for it and name a host
      and a port, and every such client reaches the same target through the HTTP/3 one and is told
      the same, unless its credentials message is the 513-byte one, too long for the read buffer. */
  lemma TransportsReachTheSameTarget(cfg: Config, methods: seq<byte>, user: seq<byte>, pass: seq<byte>,
                                     command: byte, addr: WireAddr, allowUdp: bool, writes: nat)
    requires 1 <= |methods| <= 255 && 1 <= |user| <= 255 && |pass| <= 255 && ValidAddr(addr) && writes >= 2
    ensures var messages := Messages(cfg, methods, user, pass, command, addr);
            var h2 := H2Outcome(Flatten(messages), cfg, allowUdp, writes);
            var h3 := H3Outcome(messages, cfg, allowUdp, writes);
            && (h2.Connect? <==>
                  Welcome(cfg, methods, user, pass) && command == 1 && addr.port != 0 && addr.host != Name([]))
            && (h2.Connect? ==> h2 == Connect(TargetOf(addr)) && h3 == if TooLong(cfg, user, pass) then Dropped else h2)
            && (h2.Connect? && !TooLong(cfg, user, pass) ==>
                  H2Reply(Flatten(messages), cfg, allowUdp, writes) == H3Reply(messages, cfg, allowUdp, writes))
  {
    H2Side(cfg, methods, user, pass, command, addr, allowUdp, writes);
    H3Side(cfg, methods, user, pass, command, addr, allowUdp, writes);
  }

  /** Exactly where the two handshakes differ, over every command and every client that sends one
      message per read. A client with the right credentials, or none to give, is treated differently
      if it offers the method used and its credentials are the longest or its host is the empty name
      (save for a CONNECT that port zero has refused already); or if it does not offer that method
      and its credentials are not the longest. */
  lemma WhereTheHandshakesDiffer(cfg: Config, methods: seq<byte>, user: seq<byte>, pass: seq<byte>,
                                 command: byte, addr: WireAddr, allowUdp: bool, writes: nat)
    requires 1 <= |methods| <= 255 && 1 <= |user| <= 255 && |pass| <= 255 && ValidAddr(addr) && writes >= 2
    ensures var messages := Messages(cfg, methods, user, pass, command, addr);
            var h2 := H2Outcome(Flatten(messages), cfg, allowUdp, writes);
            var h3 := H3Outcome(messages, cfg, allowUdp, writes);
            h2 != h3
            <==> Trusted(cfg, user, pass)
                 && if Selected(cfg) in methods then
                      TooLong(cfg, user, pass) || (addr.host == Name([]) && !(command == 1 && addr.port == 0))
                    else !TooLong(cfg, user, pass)
  {
    H2Side(cfg, methods, user, pass, command, addr, allowUdp, writes);
    H3Side(cfg, methods, user, pass, command, addr, allowUdp, writes);
  }

  /** The streaming decoder on the bytes themselves, as the two that work over a buffer. */
  lemma RequestsByBytes(command: byte, kind: byte, host: seq<byte>, hi: byte, lo: byte, rest: seq<byte>)
    requires Kind(kind, host)
    ensures var block := Block(kind, host, hi, lo);
            RequestOf([5, command, 0] + block + rest)
            == if kind == 3 && host == [] then None
               else Some(Framed(Request(command, Target(Named(kind, host), 256 * hi + lo)), 3 + |block|))
  {
    var block := Block(kind, host, hi, lo);
    var a := BlockDecodes(kind, host, hi, lo, rest);
    assert ([5, command, 0] + block + rest)[3..] == block + rest;
  }
}

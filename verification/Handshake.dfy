/** The SOCKS5 handshakes: the streaming one of the HTTP/2 client (tunnel/h2_socks.go) and the
    one-message-per-read one of the HTTP/3 client (tunnel/masque.go HandleSOCKS5), both over
    the same model of a client connection. */
module Handshake {
  import opened Basics
  import opened Addresses
  import opened Socks5Wire
  import opened Socks5Decoders

  const CMD_CONNECT: byte := 0x01
  const CMD_UDP_ASSOCIATE: byte := 0x03
  const H3_BUFFER := 512

  // ---------------------------------------------------------------- the connection

  function Flatten(chunks: seq<seq<byte>>): seq<byte> {
    if chunks == [] then [] else chunks[0] + Flatten(chunks[1..])
  }

  /** A client connection: the pieces in which its bytes will arrive, after which every read
      fails, what was written to it, and how many more writes will succeed. */
  class Conn {
    var incoming: seq<seq<byte>>
    var sent: seq<byte>
    var writesLeft: nat

    constructor (chunks: seq<seq<byte>>, writes: nat)
      requires [] !in chunks
      ensures Valid() && incoming == chunks && sent == [] && writesLeft == writes
    {
      incoming, sent, writesLeft := chunks, [], writes;
    }

    /** A read never returns zero bytes without an error. */
    ghost predicate Valid()
      reads this
    {
      [] !in incoming
    }

    ghost function Stream(): seq<byte>
      reads this
    {
      Flatten(incoming)
    }

    /** One Read into a buffer of the given size: at most one piece, possibly cut. */
    method Read(limit: nat) returns (r: Option<seq<byte>>)
      requires Valid() && limit > 0
      modifies this`incoming
      ensures Valid()
      ensures old(incoming) == [] ==> r.None? && incoming == []
      ensures old(incoming) != [] ==>
        r.Some? && 0 < |r.value| <= limit
        && r.value == FirstRead(old(incoming), limit) && incoming == AfterRead(old(incoming), limit)
        && old(Stream()) == r.value + Stream()
    {
      if incoming == [] { return None; }
      var piece, later := incoming[0], incoming[1..];
      if |piece| <= limit {
        incoming := later;
        return Some(piece);
      }
      incoming := [piece[limit..]] + later;
      assert incoming[1..] == later;
      assert piece == piece[..limit] + piece[limit..];
      return Some(piece[..limit]);
    }

    /** io.ReadFull: repeats Read until the buffer is full or a read fails. The ghost
        arguments place the call in the stream it is reading: pos bytes are already consumed. */
    method ReadFull(k: nat, ghost input: seq<byte>, ghost pos: nat) returns (r: Option<seq<byte>>)
      requires Valid() && pos <= |input| && Stream() == input[pos..]
      modifies this`incoming
      ensures Valid()
      ensures pos + k <= |input| ==> r == Some(input[pos..pos + k]) && Stream() == input[pos + k..]
      ensures pos + k > |input| ==> r == None && Stream() == []
    {
      var got: seq<byte> := [];
      while |got| < k
        invariant Valid() && |got| <= k && pos + |got| <= |input|
        invariant got == input[pos..pos + |got|] && Stream() == input[pos + |got|..]
        decreases k - |got|
      {
        ghost var here := pos + |got|;
        var piece := Read(k - |got|);
        if piece.None? { return None; }
        Advance(input, pos, here, piece.value, Stream());
        got := got + piece.value;
      }
      return Some(got);
    }

    method Write(bytes: seq<byte>) returns (ok: bool)
      modifies this`sent, this`writesLeft
      ensures ok <==> old(writesLeft) > 0
      ensures sent == if ok then old(sent) + bytes else old(sent)
      ensures writesLeft == if ok then old(writesLeft) - 1 else 0
    {
      ok := writesLeft > 0;
      if ok {
        sent, writesLeft := sent + bytes, writesLeft - 1;
      }
    }
  }

  function FirstRead(chunks: seq<seq<byte>>, limit: nat): seq<byte>
    requires chunks != []
  {
    if |chunks[0]| <= limit then chunks[0] else chunks[0][..limit]
  }

  function AfterRead(chunks: seq<seq<byte>>, limit: nat): seq<seq<byte>>
    requires chunks != []
  {
    if |chunks[0]| <= limit then chunks[1..] else [chunks[0][limit..]] + chunks[1..]
  }

  /** Consuming a piece moves the reading position by its length. */
  lemma Advance(input: seq<byte>, pos: nat, here: nat, piece: seq<byte>, rest: seq<byte>)
    requires pos <= here <= |input| && input[here..] == piece + rest
    ensures here + |piece| <= |input| && rest == input[here + |piece|..]
    ensures input[pos..here] + piece == input[pos..here + |piece|]
  {
    assert piece == input[here..][..|piece|];
    assert rest == input[here..][|piece|..];
  }

  // ---------------------------------------------------------------- configuration and messages

  datatype Config = Config(username: seq<byte>, password: seq<byte>)

  predicate RequireAuth(cfg: Config) {
    cfg.username != [] && cfg.password != []
  }

  function Selected(cfg: Config): byte {
    if RequireAuth(cfg) then 0x02 else 0x00
  }

  /** The client's greeting (section 3 of RFC 1928). */
  function Greeting(methods: seq<byte>): seq<byte>
    requires |methods| <= 255
  {
    [0x05, |methods|] + methods
  }

  /** The credentials message (section 2 of RFC 1929). */
  function Credentials(user: seq<byte>, pass: seq<byte>): seq<byte>
    requires |user| <= 255 && |pass| <= 255
  {
    [0x01, |user|] + user + [|pass|] + pass
  }

  /** The request (section 4 of RFC 1928). */
  function RequestBytes(command: byte, addr: WireAddr): seq<byte>
    requires ValidAddr(addr)
  {
    [0x05, command, 0x00] + AddressBytes(addr)
  }

  // ---------------------------------------------------------------- negotiateSOCKS5

  /** The result of a negotiation: whether it succeeded, how many bytes it then consumed, and
      what it wrote in either case. */
  datatype Verdict = Verdict(ok: bool, used: nat, reply: seq<byte>)

  function IfWritable(writes: nat, need: nat, bytes: seq<byte>): seq<byte> {
    if writes >= need then bytes else []
  }

  function Negotiation(input: seq<byte>, cfg: Config, writes: nat): Verdict {
    var choice := MethodChoice(input, cfg, writes);
    if !choice.ok || !RequireAuth(cfg) || writes == 0 || choice.used > |input| then choice
    else
      var auth := Authentication(input[choice.used..], cfg, writes - 1);
      Verdict(auth.ok, choice.used + auth.used, choice.reply + auth.reply)
  }

  function MethodChoice(input: seq<byte>, cfg: Config, writes: nat): Verdict {
    if |input| < 2 || input[0] != 0x05 || input[1] == 0 then Verdict(false, 0, [])
    else
      var n: int := input[1];
      if |input| < 2 + n then Verdict(false, 0, [])
      else if Selected(cfg) !in input[2..2 + n] then Verdict(false, 0, IfWritable(writes, 1, [0x05, 0xff]))
      else if writes == 0 then Verdict(false, 0, [])
      else Verdict(true, 2 + n, [0x05, Selected(cfg)])
  }

  /** The two strings of a credentials message and where it ends. */
  datatype Login = Login(user: seq<byte>, pass: seq<byte>, end: nat)

  function LoginAt(input: seq<byte>): Option<Login>
    requires |input| >= 2
  {
    var ulen: int := input[1];
    if |input| < 3 + ulen then None
    else
      var plen: int := input[2 + ulen];
      if |input| < 3 + ulen + plen then None
      else Some(Login(input[2..2 + ulen], input[3 + ulen..3 + ulen + plen], 3 + ulen + plen))
  }

  function Authentication(input: seq<byte>, cfg: Config, writes: nat): Verdict {
    if |input| < 2 then Verdict(false, 0, [])
    else if input[0] != 0x01 || input[1] == 0 then Verdict(false, 0, IfWritable(writes, 1, [0x01, 0x01]))
    else match LoginAt(input)
         case None => Verdict(false, 0, [])
         case Some(login) =>
           if login.user != cfg.username || login.pass != cfg.password then
             Verdict(false, 0, IfWritable(writes, 1, [0x01, 0x01]))
           else if writes == 0 then Verdict(false, 0, [])
           else Verdict(true, login.end, [0x01, 0x00])
  }

  /** The loop over the offered methods. */
  method Offers(methods: seq<byte>, selected: byte) returns (offered: bool)
    ensures offered <==> selected in methods
  {
    offered := false;
    for i := 0 to |methods|
      invariant !offered && selected !in methods[..i]
    {
      if methods[i] == selected {
        offered := true;
        break;
      }
    }
  }

  /** How many replies a client that is let in has been sent. */
  function Rounds(cfg: Config): nat {
    if RequireAuth(cfg) then 2 else 1
  }

  method Negotiate(conn: Conn, cfg: Config) returns (ok: bool)
    requires conn.Valid()
    modifies conn
    ensures conn.Valid()
    ensures ok ==> old(conn.writesLeft) == conn.writesLeft + Rounds(cfg)
    ensures var v := Negotiation(old(conn.Stream()), cfg, old(conn.writesLeft));
            ok == v.ok && conn.sent == old(conn.sent) + v.reply
            && (ok ==> v.used <= |old(conn.Stream())| && conn.Stream() == old(conn.Stream())[v.used..])
  {
    ghost var input := conn.Stream();
    ghost var choice := MethodChoice(input, cfg, conn.writesLeft);
    ok := ChooseMethod(conn, cfg);
    if !ok || !RequireAuth(cfg) { return; }
    ghost var greeted := conn.sent;
    ghost var auth := Authentication(input[choice.used..], cfg, conn.writesLeft);
    ok := Authenticate(conn, cfg);
    assert greeted + auth.reply == old(conn.sent) + (choice.reply + auth.reply);
    if ok {
      SliceOfSuffix(input, choice.used, auth.used, |input| - choice.used);
    }
  }

  /** Lines 99 to 133 of negotiateSOCKS5: the greeting and the choice of method. */
  method ChooseMethod(conn: Conn, cfg: Config) returns (ok: bool)
    requires conn.Valid()
    modifies conn
    ensures conn.Valid()
    ensures var v := MethodChoice(old(conn.Stream()), cfg, old(conn.writesLeft));
            ok == v.ok && conn.sent == old(conn.sent) + v.reply
            && (ok ==> v.used <= |old(conn.Stream())| && conn.Stream() == old(conn.Stream())[v.used..])
    ensures ok ==> old(conn.writesLeft) > 0 && conn.writesLeft == old(conn.writesLeft) - 1
  {
    ghost var input := conn.Stream();
    var header := conn.ReadFull(2, input, 0);
    if header.None? { return false; }
    if header.value[0] != 0x05 || header.value[1] == 0 { return false; }
    var n: int := header.value[1];
    var methods := conn.ReadFull(n, input, 2);
    if methods.None? { return false; }
    var selected: byte := if RequireAuth(cfg) then 0x02 else 0x00;
    var offered := Offers(methods.value, selected);
    if !offered {
      var _ := conn.Write([0x05, 0xff]);
      return false;
    }
    ok := conn.Write([0x05, selected]);
  }

  method Authenticate(conn: Conn, cfg: Config) returns (ok: bool)
    requires conn.Valid()
    modifies conn
    ensures conn.Valid()
    ensures ok ==> old(conn.writesLeft) > 0 && conn.writesLeft == old(conn.writesLeft) - 1
    ensures var v := Authentication(old(conn.Stream()), cfg, old(conn.writesLeft));
            ok == v.ok && conn.sent == old(conn.sent) + v.reply
            && (ok ==> v.used <= |old(conn.Stream())| && conn.Stream() == old(conn.Stream())[v.used..])
  {
    ghost var input := conn.Stream();
    var header := conn.ReadFull(2, input, 0);
    if header.None? { return false; }
    if header.value[0] != 0x01 || header.value[1] == 0 {
      var _ := conn.Write([0x01, 0x01]);
      return false;
    }
    var login := ReadLogin(conn, header.value[1], input);
    if login.None? { return false; }
    if login.value.0 != cfg.username || login.value.1 != cfg.password {
      var _ := conn.Write([0x01, 0x01]);
      return false;
    }
    ok := conn.Write([0x01, 0x00]);
  }

  method ReadLogin(conn: Conn, ulen: byte, ghost input: seq<byte>) returns (r: Option<(seq<byte>, seq<byte>)>)
    requires conn.Valid() && |input| >= 2 && input[1] == ulen && conn.Stream() == input[2..]
    modifies conn`incoming
    ensures conn.Valid() && (r.Some? <==> LoginAt(input).Some?)
    ensures var login := LoginAt(input);
            r.Some? ==> r.value == (login.value.user, login.value.pass) && login.value.end <= |input|
                        && conn.Stream() == input[login.value.end..]
  {
    var n: int := ulen;
    var username := conn.ReadFull(n, input, 2);
    if username.None? { return None; }
    var length := conn.ReadFull(1, input, 2 + n);
    if length.None? { return None; }
    var plen: int := length.value[0];
    var password := conn.ReadFull(plen, input, 3 + n);
    if password.None? { return None; }
    return Some((username.value, password.value));
  }

  // ---------------------------------------------------------------- readSOCKS5Request

  datatype Request = Request(command: byte, target: Target)
  datatype Framed = Framed(request: Request, used: nat)

  /** What a request at the front of a stream says; port zero is let through here. */
  function RequestOf(input: seq<byte>): Option<Framed> {
    if |input| < 4 || input[0] != 0x05 || input[2] != 0x00 then None
    else match DecodeAddress(input[3..])
         case Some(d) =>
           if d.addr.host == Name([]) then None
           else Some(Framed(Request(input[1], TargetOf(d.addr)), 3 + d.used))
         case None => None
  }

  method ReadRequest(conn: Conn) returns (r: Option<Request>)
    requires conn.Valid()
    modifies conn`incoming
    ensures conn.Valid()
    ensures var framed := RequestOf(old(conn.Stream()));
            (r.Some? <==> framed.Some?)
            && (r.Some? ==> r.value == framed.value.request && framed.value.used <= |old(conn.Stream())|
                            && conn.Stream() == old(conn.Stream())[framed.value.used..])
  {
    ghost var input := conn.Stream();
    var header := conn.ReadFull(4, input, 0);
    if header.None? { return None; }
    if header.value[0] != 0x05 || header.value[2] != 0x00 { return None; }
    var host := ReadHost(conn, header.value[3], input);
    HostThenPort(input);
    if host.None? { return None; }
    ghost var off := HostAt(input).value.end;
    var portBytes := conn.ReadFull(2, input, off);
    if portBytes.None? { return None; }
    var port := PortOf(portBytes.value[0], portBytes.value[1]);
    return Some(Request(header.value[1], Target(host.value, port)));
  }

  /** The switch over the address type. */
  method ReadHost(conn: Conn, kind: byte, ghost input: seq<byte>) returns (r: Option<Host>)
    requires conn.Valid() && |input| >= 4 && kind == input[3] && conn.Stream() == input[4..]
    modifies conn`incoming
    ensures conn.Valid() && (r.Some? <==> HostAt(input).Some?)
    ensures var placed := HostAt(input);
            r.Some? ==> r.value == placed.value.host && placed.value.end <= |input|
                        && conn.Stream() == input[placed.value.end..]
  {
    if kind == 0x01 {
      var value := conn.ReadFull(4, input, 4);
      if value.None? { return None; }
      return Some(Address(Normal(value.value)));
    } else if kind == 0x03 {
      var length := conn.ReadFull(1, input, 4);
      if length.None? { return None; }
      if length.value[0] == 0 { return None; }
      var l: int := length.value[0];
      var value := conn.ReadFull(l, input, 5);
      if value.None? { return None; }
      return Some(Domain(value.value));
    } else if kind == 0x04 {
      var value := conn.ReadFull(16, input, 4);
      if value.None? { return None; }
      return Some(Address(Normal(value.value)));
    } else {
      return None;
    }
  }
}

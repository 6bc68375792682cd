# Verification of the MASQUE tunnel clients

A Dafny 4.11 model of the `tunnel` package: the shared-connection protocol of the HTTP/3 client, the supervisor
of the HTTP/2 client, and the SOCKS5 codecs, handshakes and UDP associations both serve, with proofs about every
input, every interleaving or every run. `dafny verify dfyconfig.toml` checks the whole project.

## How the model is built

Objects whose fields the program updates in place are classes whose methods are its critical sections or calls, each
proved against a function. Protocols that several goroutines run together are transition systems built from those
same functions: a state, a set of actions, the exact state after each, and runs as sequences of states. Any number of
threads take part, and whatever the network, a peer or a clock decides is left open. Invariants are split into
named parts; each theorem is a statement about every state of every run.

| module | what it models |
|---|---|
| Basics, Addresses | options and bytes; `net.IP` values, `To4`, `To16` and `Equal` |
| Socks5Wire | the address block of RFC 1928 section 5 as a reference encoder and decoder |
| Socks5Decoders, UdpFrames | `parseSOCKS5Addr` and `parseUDPRequest` over a buffer, `appendUDPReply`, the ASSOCIATE reply |
| Handshake, HandshakeProofs | a client connection read in arbitrary pieces, the streaming handshake of the HTTP/2 client, the one-message-per-read handshake of the HTTP/3 client |
| UdpRelay | one UDP association, pinned to its first sender, directly or through the tunnel |
| EdgeDial | the cyclic search over edge addresses |
| DnsCache, DnsAnswers | the resolution cache and what is taken from DNS answers |
| NameFlight | one lookup per name at a time |
| DohSlot, DohInvariant, DohTheorems | the shared DNS-over-HTTPS connection, its dial flights, its retirement and Close |
| Bundles | the shared QUIC connection: reconnect, stale reports and Close |
| LockOrder | every Lock, Unlock and wait of the HTTP/3 client, for freedom from deadlock |
| TunnelRelay | the two copies of one connection, half-close, the grace timer and release |
| H2Supervisor, H2Theorems | the current bundle and its announcements, the supervisor, the pumps and Close of the HTTP/2 client |

## Where the code does less than its comments say

The model follows the code. Each of these is proved with its exact condition.

- `dohConnection` looks at the slot and claims the dial in two separate sections, so a second dialer can overwrite a
  connection without closing it (`DohTheorems.ADialCanOverwrite`). It happens exactly when the connection that was in
  the slot when the dial was claimed is still there (`DohTheorems.OverwritesOnlyWhatTheClaimSaw`).
- `Close` empties the DoH slot before it sets `closed`. A connection installed and checked in between stays in the
  slot (`DohTheorems.CloseCanLeaveAConnection`); the slot is full after Close exactly then
  (`DohTheorems.SlotAfterClose`), and never with the two steps swapped (`DohTheorems.SwappedCloseLeavesNothing`).
- `parseSOCKS5Addr` checks for four bytes and then reads a fifth: a four-byte domain request panics, and nothing else
  does (`Socks5Decoders.RequestTargetExact`).
- The longest credentials message of RFC 1929 is 513 bytes and the HTTP/3 handshake reads it into 512: exactly the
  clients with a 255-byte user name and a 255-byte password are dropped
  (`HandshakeProofs.TransportsReachTheSameTarget`).
- The HTTP/3 handshake never looks at the methods a client offers, which RFC 1928 section 3 has the server choose
  from, and it lets the empty domain name through, which the HTTP/2 one refuses. With the longest credentials these are
  all the ways in which the two treat a client differently (`HandshakeProofs.WhereTheHandshakesDiffer`).
- The HTTP/3 client stops dialing at the first address whose family has no route. With candidates of both families it
  can miss a reachable one (`EdgeDial.MixedFamiliesMissAReachableAddress`); with one family it cannot
  (`EdgeDial.CompleteOnOneFamily`).
- Two DNS answers give the same result in either order unless the AAAA answer is an IPv4-mapped address, which counts
  as IPv4 and races the A answer (`DnsAnswers.ArrivalOrderMatters`).
- Re-encoding a parsed datagram gives the same bytes unless it carried an IPv4-mapped address
  (`UdpFrames.ReEncoding`).

## Model

| member | source | states |
|---|---|---|
| `Addresses.EqualIsSameNormal` | tunnel/udp.go:157-165 | the peer comparison is equality of normal forms, so IPv4 and IPv4-mapped forms of one address are one peer |
| `Addresses.NormalForms` | tunnel/udp.go:296-311 | every usable address has one normal form, reached from either length and stable, and the address family is read off it |
| `Addresses.FormsByBytes` | tunnel/udp.go:297-306 | on the bytes: four bytes are an IPv4 address, sixteen behind ten zeros and two 255s are its mapped form, and every other sixteen are IPv6 |
| `Socks5Wire.DecodeOfEncode` | tunnel/h2_socks.go:174-210 | an address block decodes to the address it encodes and ends where it ends, whatever bytes follow |
| `Socks5Wire.EncodeOfDecode` | tunnel/h2_socks.go:174-210 | what decodes is an encoding: the bytes consumed are exactly those of the address returned |
| `Socks5Wire.AddressBytesPrefixFree` | tunnel/udp.go:242-292 | no block is a proper prefix of another, so a stream has one reading |
| `Socks5Decoders.ParseSocks5Addr` | tunnel/masque.go:1313-1350 | the buffer decoder of requests, with its panic as an outcome, refines the reference decoder |
| `Socks5Decoders.RequestTargetExact` | tunnel/masque.go:1313-1350 | it panics on exactly the four-byte domain requests and otherwise accepts exactly the encodings with a non-zero port |
| `Socks5Decoders.ParseUdpRequest` | tunnel/udp.go:242-292 | the datagram decoder over an array: every index in range for every buffer and length, and it refines the reference decoder |
| `Socks5Decoders.UdpTargetExact` | tunnel/udp.go:242-292 | a datagram is accepted exactly when it is unfragmented and encodes an address with a non-empty name and non-zero port, and the payload is all that follows |
| `Socks5Decoders.DatagramAndRequestAgree` | tunnel/udp.go:242-292 | on every unfragmented buffer the datagram decoder accepts what the request decoder accepts with a non-empty name, with the same target |
| `Socks5Decoders.TargetsByBytes` | tunnel/udp.go:242-292 | the verdict of both buffer decoders on a type byte, host bytes, two port bytes and whatever follows, byte by byte: the target they name, the offset of the payload, and what is refused |
| `Socks5Decoders.OtherKindsAreRefused` | tunnel/masque.go:1313-1350 | every address type but 1, 3 and 4 is refused by both |
| `UdpFrames.AppendUdpReply` | tunnel/udp.go:296-311 | fails exactly on addresses of neither length, and otherwise appends the frame of the source and payload to the caller's buffer |
| `UdpFrames.BoundReply` | tunnel/masque.go:1363-1377 | the reply to ASSOCIATE, built in place, is the frame of the bound address |
| `UdpFrames.BoundReplyReadsBack` | tunnel/masque.go:1363-1377 | a client decoding that reply gets back the bound address in normal form and the port |
| `UdpFrames.RepliesByBytes` | tunnel/udp.go:296-311 | every byte of the reply to ASSOCIATE and of a relayed datagram: five and two zeros, or three zeros, then type, normal address and big-endian port, then the payload |
| `UdpFrames.ReplyRoundTrip` | tunnel/udp.go:296-311 | parsing a reply gives back the normalised source, its port and the payload; the only port lost is the one that truncates to zero |
| `UdpFrames.ReplyInjective` | tunnel/udp.go:296-311 | two replies are equal if and only if they have the same peer up to mapped form and the same payload |
| `UdpFrames.ParsedShape` | tunnel/udp.go:242-292 | a parsed datagram with zero RSV is header, encoded address, payload, and nothing else |
| `UdpFrames.ReEncoding` | tunnel/udp.go:296-311 | re-encoding a parsed zero-RSV IP datagram gives the same bytes if and only if it was not IPv4-mapped |
| `Handshake.Conn.ReadFull` | tunnel/h2_socks.go:100-103 | for every split of the stream into reads, returns exactly the next k bytes and leaves the rest, or fails when there are fewer |
| `Handshake.Offers` | tunnel/h2_socks.go:117-124 | the method loop finds the wanted method if and only if it was offered |
| `Handshake.Negotiate` | tunnel/h2_socks.go:99-163 | verdict, replies and bytes consumed depend only on the stream, the configuration and when writes fail, never on how reads split it |
| `Handshake.ChooseMethod` | tunnel/h2_socks.go:99-133 | greeting and method choice, against the same specification |
| `Handshake.Authenticate` | tunnel/h2_socks.go:135-163 | the credentials exchange, against the same specification |
| `Handshake.ReadRequest` | tunnel/h2_socks.go:165-211 | the request reader, for every split of the stream, refines the reference decoder and consumes exactly the request |
| `HandshakeProofs.RequestsByBytes` | tunnel/h2_socks.go:165-211 | the request reader on the bytes: command, type, host and port as sent, the empty name refused, and nothing after the port consumed |
| `HandshakeProofs.StreamingRoundTrip` | tunnel/h2_socks.go:99-211 | every client encoding is accepted exactly when the needed method was offered and both credentials match; hello and request are read back whole and nothing after them is touched |
| `HandshakeProofs.OnlyEncodingsAreAccepted` | tunnel/h2_socks.go:99-163 | conversely every accepted stream begins with a client encoding that offers the method and carries the configured credentials |
| `HandshakeProofs.AcceptedCredentials` | tunnel/h2_socks.go:135-163 | the accepted credentials are the configured ones, byte for byte |
| `HandshakeProofs.NegotiationByBytes` | tunnel/h2_socks.go:99-163 | the bytes a client is told: method 0 or 2 when it was offered and otherwise 255, and status 0 exactly when both credentials match, otherwise 1 |
| `HandshakeProofs.LetInMeansAnswered` | tunnel/h2_socks.go:126-161 | nobody is let in unless the method reply, and the status reply if one is due, were written |
| `HandshakeProofs.StreamAndBufferAgree` | tunnel/h2_socks.go:165-211 | the streaming decoder accepts what the two buffer decoders accept, and port zero besides, with the same target and end |
| `HandshakeProofs.ServeH2` | tunnel/h2_socks.go:19-97 | the HTTP/2 handler up to the dial: its outcome, and every byte it writes, refusals included, depend only on the stream, the configuration and when writes fail |
| `HandshakeProofs.ServeH3` | tunnel/masque.go:481-565 | the HTTP/3 handler up to resolution: its outcome and every byte it writes, computed from its single reads of 512 bytes |
| `HandshakeProofs.ServeH3Credentials` | tunnel/masque.go:500-524 | its credentials exchange, which goes on even when the confirmation cannot be written |
| `HandshakeProofs.TransportsReachTheSameTarget` | tunnel/masque.go:481-561 | the HTTP/2 handshake connects exactly the welcome clients that ask to connect and name a host and a port, and each reaches the same target through the HTTP/3 one and is told the same, except exactly for 513-byte credentials, which are dropped |
| `HandshakeProofs.WhereTheHandshakesDiffer` | tunnel/masque.go:488-561 | for every client that sends one message per read, whatever its command, the condition on its messages under which the two handshakes differ, both directions: the longest credentials, the empty name, or a method used but not offered |
| `HandshakeProofs.H3Side` | tunnel/masque.go:481-561 | for every such client and every command in the HTTP/3 handshake, connected, associated, refused with 7 or 8 or dropped, and the bytes it is told, with the buffer's exact limit and no regard to the methods offered |
| `HandshakeProofs.H2Side` | tunnel/h2_socks.go:19-97 | the same in the HTTP/2 handshake: dropped unless welcome, refused with 8 for the empty name or port zero, refused with 7 for a command it does not serve, and the ten bytes of each refusal |
| `UdpRelay.RemoteFor` | tunnel/h2_udp.go:42-53 | the socket found is the first of the address's family |
| `UdpRelay.FirstOfFamilyServes` | tunnel/h2_udp.go:42-53 | a socket is found if and only if some socket serves the family, and the one found serves it |
| `UdpRelay.ResolveInTunnel` | tunnel/h2_udp.go:197-224 | literal targets need a socket of their family; of a name's addresses the first with one is taken |
| `UdpRelay.ResolveOnHost` | tunnel/udp.go:317-344 | outside the tunnel a literal is its own address and a name the first one looked up |
| `UdpRelay.Association.SetPeer` | tunnel/udp.go:157-165 | the first source is recorded and never replaced; later ones pass only if they are that peer |
| `UdpRelay.Association.ClientDatagram` | tunnel/udp.go:167-199 | one round of the client loop: the first source is pinned, nothing is sent for anyone but the peer, and what is sent for the peer is what `UdpRelay.ForwardedIff` characterises |
| `UdpRelay.ForwardedIff` | tunnel/udp.go:167-199 | something is sent if and only if the datagram is, byte by byte, a header, an address, a non-zero port and the payload sent, and the address sent to is the literal or the first one looked up, in the tunnel the first with a socket, together with the first socket of its family |
| `UdpRelay.CarriedIsForwarded` | tunnel/udp.go:182-194 | for a datagram given by its parts, exactly the payload without its header, the port and the chosen address and socket are sent |
| `UdpRelay.Association.TargetDatagram` | tunnel/udp.go:201-231 | one round of the target loop: a framed reply to the peer, or the end of the loop when it cannot be written |
| `UdpRelay.RelayedExactly` | tunnel/udp.go:148-231 | over every run the targets sent to are, in order, what the first sender's datagrams ask for in the sense of `UdpRelay.ForwardedIff`, and the replies are, in order, the usable datagrams since then, all to that peer |
| `UdpRelay.PeerNeverChanges` | tunnel/udp.go:157-165 | whatever follows, the peer once set stays |
| `UdpRelay.TunnelFamilyMatches` | tunnel/h2_udp.go:158-224 | in the tunnel resolution never leaves a datagram without a socket, and the socket chosen has the target's family |
| `UdpRelay.TunnelFamilyOverRuns` | tunnel/h2_udp.go:158-224 | the same for everything sent over every run |
| `EdgeDial.Edges.Dial` | tunnel/masque.go:228-257 | both clients' dial loop refines one turn over the addresses from where the last success was |
| `EdgeDial.RotationIsInjective` | tunnel/h2.go:212-213 | one turn never visits an address twice |
| `EdgeDial.RotationIsOnto` | tunnel/h2.go:212-213 | one turn visits every address |
| `EdgeDial.SuccessIsFirstReachable` | tunnel/masque.go:228-257 | a success is the first reachable address in cyclic order, everything before it failed without stopping the search, and the next dial starts there |
| `EdgeDial.FailureIsExhaustive` | tunnel/masque.go:228-257 | a failure moves nothing, tried no address twice, and tried all of them unless the last one stopped the search |
| `EdgeDial.WhatEndsASearch` | tunnel/masque.go:243-253 | nothing is tried after a cancelled attempt, nor by the HTTP/3 client after an address without a route, and a search cut short ended in one of these |
| `EdgeDial.FindsIff` | tunnel/masque.go:231-256 | a dial succeeds if and only if some address is reachable and no earlier failure stops the search |
| `EdgeDial.CompleteOnOneFamily` | tunnel/masque.go:247-255 | with candidates of one family and no cancellation the search is complete for both clients |
| `EdgeDial.MixedFamiliesMissAReachableAddress` | tunnel/masque.go:251-255 | with two families the HTTP/3 client can miss an address the HTTP/2 client finds |
| `EdgeDial.SeriesIsSticky` | tunnel/h2.go:210-227 | over any series of dials the starting point is where the most recent success was, or the head of the list before any |
| `DnsCache.Cache.Lookup` | tunnel/masque.go:781-788 | a hit is an entry strictly before its expiry |
| `DnsCache.Cache.Sweep` | tunnel/masque.go:766-771 | the deletion loop, in any order of iteration, keeps exactly the live entries |
| `DnsCache.Cache.CacheResolution` | tunnel/masque.go:761-778 | a store sweeps, empties or neither, and then records its entry |
| `DnsCache.HitsExactly` | tunnel/masque.go:761-788 | over every run a lookup hits if and only if the host's most recent store is within its TTL and the cache was not emptied since, and returns what that store stored |
| `DnsCache.EntryIsLastStore` | tunnel/masque.go:777-777 | an entry present is always the most recent store of its host |
| `DnsCache.LiveEntriesStay` | tunnel/masque.go:765-776 | the sweep drops no live entry |
| `DnsCache.SizeIsBounded` | tunnel/masque.go:765-776 | the cache never exceeds 8192 entries, nor the larger of 1024 and one plus the hosts stored in the last five minutes |
| `DnsAnswers.TtlFitsDuration` | tunnel/masque.go:1287-1293 | a 32-bit TTL in nanoseconds fits a signed 64-bit duration |
| `DnsAnswers.ParseAnswer` | tunnel/masque.go:1263-1297 | the first record of the asked type is taken, with its TTL between five seconds and five minutes |
| `DnsAnswers.Collect` | tunnel/masque.go:1136-1186 | the collecting loop over two answers in order of arrival |
| `DnsAnswers.ArrivalOrderMatters` | tunnel/masque.go:1161-1186 | the order matters if and only if both answered and the AAAA answer is IPv4-mapped; otherwise an A answer wins |
| `DnsAnswers.WhatIsCollected` | tunnel/masque.go:1161-1186 | the result on the two replies: the only answer, the A answer of two unless a mapped AAAA came first, and a transport failure if either query had one |
| `NameFlight.FlightTable.JoinOrLead` | tunnel/masque.go:791-803 | a lookup joins the flight of its host or registers the only one |
| `NameFlight.FlightTable.Delete` | tunnel/masque.go:840-842 | after a leader's last step the next caller for the host leads a flight of its own, and callers for every other host find what they would have found |
| `NameFlight.OneLeaderPerName` | tunnel/masque.go:791-842 | in every interleaving at most one thread leads a given host |
| `NameFlight.OnlyTheLeaderDeletes` | tunnel/masque.go:840-842 | a flight leaves the table only by its own leader |
| `NameFlight.EveryoneGetsTheLeadersAnswer` | tunnel/masque.go:794-844 | everyone served by a flight gets its one final pair, with exactly one of address and error set and at most two attempts behind it |
| `NameFlight.AnswersAreFinal` | tunnel/masque.go:835-837 | a published answer never changes |
| `NameFlight.AnswersAreBrought` | tunnel/masque.go:816-837 | what a flight publishes is what its leader's own last attempt brought, the address or the error |
| `NameFlight.FlightsAreForTheHost` | tunnel/masque.go:791-803 | a lookup waits for, or leads, a flight of the very host it asked for, and leads only one that is new |
| `NameFlight.HowLookupsEnd` | tunnel/masque.go:780-844 | a lookup ends with the hit it read, with its own context while it waits, or with the published answer of the flight it waited for or led |
| `NameFlight.WaitersAreServed` | tunnel/masque.go:794-844 | a waiter whose flight is done can return, and until then its leader has a step that brings the end nearer |
| `NameFlight.LeadersFinish` | tunnel/masque.go:816-844 | every step of a leader shrinks what is left, and an attempt is made again if and only if the first one failed on the transport before the context expired |
| `DohSlot.Fields.LiveDoH` | tunnel/masque.go:1003-1020 | hands out the slot's connection if and only if it is not dead, and takes it out to be closed if and only if it is |
| `DohSlot.Fields.InvalidateDoH` | tunnel/masque.go:1041-1051 | takes out the named connection, or any when none is named, and nothing else |
| `DohSlot.Fields.Claim` | tunnel/masque.go:930-957 | joins the dial in flight or registers one |
| `DohSlot.Fields.Publish` | tunnel/masque.go:964-970 | installs what was dialed and clears the flight |
| `DohInvariant.InvKept` | tunnel/masque.go:924-1051 | every step of every thread keeps the invariant: registers, flights, hands, retired connections and the stages of Close |
| `DohTheorems.WhatALookupFinds` | tunnel/masque.go:1003-1020 | over every run a lookup uses a live connection and leaves it in place, retires a dead one and closes it, and dials when there is none |
| `DohTheorems.UnnamedEmptiesTheSlot` | tunnel/masque.go:1041-1051 | an invalidation that names none leaves the slot empty and its connection in the hands that close it |
| `DohTheorems.WhatTheFirstCheckDoes` | tunnel/masque.go:959-970 | a fresh connection is closed when the client is already closed and published otherwise |
| `DohTheorems.WhatTheOwnerGets` | tunnel/masque.go:949-985 | the thread that dialed uses the connection it installed, returns the dial error, or finds the client closed and invalidates what it installed |
| `DohTheorems.FailedLinksAreRetired` | tunnel/masque.go:1226-1243 | a question that fails on the link retires the connection it ran on before the failure is reported, one that fails otherwise retires nothing, and a lookup that retries looks for a connection again |
| `DohTheorems.OneDialInFlight` | tunnel/masque.go:924-985 | at most one dial is in flight, and dohDial is set exactly while its owner is between registering and publishing |
| `DohTheorems.FlightsEndOnce` | tunnel/masque.go:964-972 | each flight's result is written once and its channel closed once, afterwards |
| `DohTheorems.HowWaitersEnd` | tunnel/masque.go:931-945 | a waiter ends with its own context's error or the owner's error, or checks the slot again after a success, and then the connection the owner dialed has been in the slot |
| `DohTheorems.WaitersAreServed` | tunnel/masque.go:931-972 | while a flight is not done some thread works on it and has a step that brings its end nearer |
| `DohTheorems.WorkersFinish` | tunnel/masque.go:949-971 | every step of a flight's worker, whichever way it goes, uses up one of at most five, no other thread touches it, and when it stops working for the flight the flight is done |
| `DohTheorems.RetiredNeverReturns` | tunnel/masque.go:1003-1051 | a connection that left the slot never re-enters it |
| `DohTheorems.InvalidationIsGuarded` | tunnel/masque.go:1041-1051 | a step towards the retry: an invalidation that names a connection retires it for the rest of the run and takes no other out |
| `DohTheorems.RetryUsesAnotherConnection` | tunnel/masque.go:816-829 | the one retry after a transport failure always runs on another connection |
| `DohTheorems.Conservation` | tunnel/masque.go:924-1051 | every connection dialed is in exactly one place: the slot, one thread's hands, closed, or overwritten |
| `DohTheorems.ClosedAtMostOnce` | tunnel/masque.go:1041-1051 | no connection is closed twice |
| `DohTheorems.OverwritesOnlyWhatTheClaimSaw` | tunnel/masque.go:926-966 | a connection is overwritten if and only if a thread installs over the very connection it found in the slot when it claimed its dial |
| `DohTheorems.ADialCanOverwrite` | tunnel/masque.go:926-966 | a reachable run in which a live connection is overwritten and not closed |
| `DohTheorems.SlotAfterClose` | tunnel/masque.go:959-983 | when Close and all pending checks are over the slot is full if and only if, in the run, a connection slipped through and was not taken out since |
| `DohTheorems.SlippedIff` | tunnel/masque.go:1299-1307 | the record of what slipped through is exact, both directions: the install and its second check both fell between Close's invalidation and closed being set |
| `DohTheorems.RetiredIff` | tunnel/masque.go:1003-1051 | the record of what left the slot is exact, both directions |
| `DohTheorems.SwappedCloseLeavesNothing` | tunnel/masque.go:1299-1307 | with these two steps of Close swapped the slot always ends empty |
| `DohTheorems.CloseCanLeaveAConnection` | tunnel/masque.go:1299-1307 | a reachable run of the code as written in which the slot stays full with every thread done |
| `Bundles.Slot.CurrentConnection` | tunnel/masque.go:338-352 | the current bundle if and only if there is one, it is not dead and the client is open |
| `Bundles.Slot.Install` | tunnel/masque.go:417-426 | no bundle is lost or doubled: what is current afterwards and what the caller must tear down are together the old current bundle and the new one, and a closed client never gets a current bundle |
| `Bundles.Slot.Shut` | tunnel/masque.go:1303-1307 | the current bundle, if any, is handed out to be torn down, and from then on every installation gives its bundle back |
| `Bundles.InvKept` | tunnel/masque.go:338-436 | every step of openRequestStream, reconnect and Close keeps the invariant |
| `Bundles.WhatIsOpened` | tunnel/masque.go:338-368 | over every run a stream is opened on the current, living bundle, and when there is none the caller reconnects, or gives up on its second look |
| `Bundles.FailureIsReported` | tunnel/masque.go:376-390 | a failure to open that is not the caller's own cancellation takes the caller to reconnect with that bundle named |
| `Bundles.WhenReconnectDials` | tunnel/masque.go:398-412 | over every run reconnect dials if and only if the client is closed, there is no bundle, it is dead or it is the one reported; otherwise it succeeds at once |
| `Bundles.InstalledIsCurrent` | tunnel/masque.go:417-427 | on an open client what was dialed becomes current, unharmed, and the bundle it replaced goes to be torn down |
| `Bundles.HowReconnectEnds` | tunnel/masque.go:398-427 | a reconnect succeeds only by finding a living bundle or after installing its own, tearing down the old one and dropping its DNS connection, and fails only when it cannot dial or the client was closed |
| `Bundles.OneMoreTry` | tunnel/masque.go:388-393 | after a reconnect the stream is asked for again if and only if the reconnect succeeded |
| `Bundles.StreamsAreReturned` | tunnel/masque.go:366-395 | over every run, every caller for whom a stream was opened ends with it, and no other caller of openRequestStream ends well |
| `Bundles.Conservation` | tunnel/masque.go:398-427 | every bundle dialed is in exactly one place, current, one thread's hands or torn down, and there is a current one exactly until closed |
| `Bundles.TornAtMostOnce` | tunnel/masque.go:398-427 | no bundle is torn down twice |
| `Bundles.AllTornAfterClose` | tunnel/masque.go:1299-1311 | once Close has returned and no thread is inside reconnect every bundle is torn down |
| `Bundles.CloseReturnsFinished` | tunnel/masque.go:1299-1311 | no caller gets past Close before its body is over |
| `Bundles.ReplacedOnlyWithReason` | tunnel/masque.go:398-425 | a replaced bundle was dead at the check or the one reported, no bundle is replaced twice, and none comes back |
| `Bundles.LateReportDialsNothing` | tunnel/masque.go:398-412 | a report on a bundle already replaced by a live one dials nothing |
| `Bundles.OneReconnectAtATime` | tunnel/masque.go:399-400 | two threads are never both inside reconnect, though connMu is free during its dial |
| `LockOrder.InvKept` | tunnel/masque.go:398-436 | every lock, unlock, wait and call of the client keeps locks with their holders and flights with their owners |
| `LockOrder.NoDeadlock` | tunnel/masque.go:398-1051 | in every reachable state with unfinished work some thread is not blocked, even with readers giving way to waiting writers and no context ever expiring |
| `LockOrder.EveryBranchIsOpen` | tunnel/masque.go:398-1051 | a thread that is not blocked and has its lock can take whichever branch the data picks |
| `LockOrder.MoversStep` | tunnel/masque.go:398-1051 | a thread that is not blocked has a step |
| `LockOrder.NothingHeldWhileWaiting` | tunnel/masque.go:924-985 | no lock is held while waiting for a flight, for goroutines or for another Close, while exchanging with a DoH server, or while asking for reconnectMu |
| `LockOrder.LeavesNeverNest` | tunnel/masque.go:398-1051 | connMu, dohMu and the cache and flight locks are never nested in one another |
| `LockOrder.WritersAreAlone` | tunnel/masque.go:338-352 | no reader is ever inside together with a writer |
| `TunnelRelay.InvKept` | tunnel/masque.go:635-677 | every event, copy and control step keeps the relay's invariant |
| `TunnelRelay.ReleasedExactlyOnce` | tunnel/masque.go:635-677 | the handler returns only after the edge's copy ended, and by then the body of release, with its CancelRead, ran exactly once, whichever caller came first |
| `TunnelRelay.BytesInOrder` | tunnel/masque.go:650-666 | both directions deliver a prefix in order; end of stream means all delivered; the send side is shut without a release only after all was forwarded |
| `TunnelRelay.TheEdgeIsTold` | tunnel/masque.go:663-668 | while the handler awaits the reply the client has finished, all its bytes went through and the send side is shut |
| `TunnelRelay.OnlyTheGraceCutsAReply` | tunnel/masque.go:655-676 | without a fault at either end or a shutdown the reply is complete unless the grace timer fired after a clean half-close |
| `TunnelRelay.TheGraceIsThirty` | tunnel/masque.go:80-84 | the grace timer fires only after thirty ticks of the run |
| `TunnelRelay.RankFalls` | tunnel/masque.go:635-677 | every control step uses up rank and copying adds none |
| `TunnelRelay.ControlIsBounded` | tunnel/masque.go:635-677 | a whole connection takes at most 43 control steps, timer ticks included, however much it copies |
| `TunnelRelay.MeasureFalls` | tunnel/masque.go:635-677 | a measure of control steps and of the bytes left in a direction that can get no more falls with each step towards the end |
| `TunnelRelay.AlwaysAWayOut` | tunnel/masque.go:628-677 | once either end has finished or broken, the process shuts down or a copy has ended, there is such a step to take until the handler returns |
| `H2Supervisor.Client.SetCurrent` | tunnel/h2.go:318-328 | unless closed or cancelled the bundle is current afterwards and the change announced, otherwise nothing changes, and it says which |
| `H2Supervisor.Client.ClearCurrent` | tunnel/h2.go:330-339 | clears and announces only if the bundle named is the current one |
| `H2Supervisor.Client.LookAtCurrent` | tunnel/h2.go:343-354 | one turn of waitCurrent: refused when closed, given the bundle when there is one, otherwise parked on the open channel |
| `H2Supervisor.Client.TakeForClose` | tunnel/h2.go:502-508 | sets closed, takes the bundle out and announces |
| `H2Supervisor.H2Bundle.Report` | tunnel/h2.go:50-60 | only the first report on a bundle is sent |
| `H2Supervisor.FirstReportWins` | tunnel/h2.go:50-60 | whatever is reported later, what the supervisor receives is the first report |
| `H2Theorems.InvKept` | tunnel/h2.go:318-516 | every step of the supervisor, the pumps, the callers and Close keeps the invariant |
| `H2Theorems.OneOpenChannel` | tunnel/h2.go:318-339 | connChanged is the newest channel and open, and every earlier one was closed exactly once |
| `H2Theorems.NoLostWakeup` | tunnel/h2.go:341-364 | a caller that is parked and cannot wake is on the open channel, with no bundle and the client not closed |
| `H2Theorems.NoLostPacket` | tunnel/h2.go:384-387 | the outbound pump wakes whenever there is a bundle, the client is closed, or it is cancelled |
| `H2Theorems.OneLiveBundle` | tunnel/h2.go:402-453 | at most one installed bundle is not closed, at most one inbound pump and one keepalive run |
| `H2Theorems.CurrentIsAlive` | tunnel/h2.go:341-351 | what callers are handed is the supervisor's bundle, and it is not closed at that moment |
| `H2Theorems.InUseIsCurrent` | tunnel/h2.go:318-328 | the converse: until the client is closed, a bundle the supervisor has installed and not yet given up is the current one |
| `H2Theorems.LookersAreGivenIt` | tunnel/h2.go:341-364 | and whoever looks then is given that bundle, a caller and the outbound pump alike |
| `H2Theorems.DialedIsInstalled` | tunnel/h2.go:444-450 | what the supervisor dialed is installed unless closed or cancelled, and is the bundle it supervises next |
| `H2Theorems.ThePumpGoesOn` | tunnel/h2.go:366-400 | the outbound pump ends only when the stack does, on close or on cancellation, never by a failing bundle |
| `H2Theorems.FailuresAreReported` | tunnel/h2.go:388-498 | a failed read, ping or write reports the bundle it failed on, with its cause if it is the first |
| `H2Theorems.ClearedOnlyForItself` | tunnel/h2.go:330-339 | a bundle stops being current only by its own failure, cancellation or Close, so a late failure never clears a newer one |
| `H2Theorems.FailureIsNoticed` | tunnel/h2.go:416-420 | in its select the supervisor can see a failure if and only if its bundle was reported |
| `H2Theorems.NoSilentFailure` | tunnel/h2.go:402-420 | while the supervisor waits and the client is open, the inbound pump and the keepalive of its bundle both run or a failure is there for it to receive |
| `H2Theorems.NothingAfterClose` | tunnel/h2.go:318-323 | once closed is set the shared fields stay as they are and no bundle is installed |
| `H2Theorems.EveryBundleIsClosed` | tunnel/h2.go:422-447 | the open bundles are at most the supervisor's own and the one in its hands, and none is open when it exits |
| `H2Theorems.CloseFinishesEverything` | tunnel/h2.go:500-516 | when Close returns every bundle dialed is closed and every goroutine has ended |
| `H2Theorems.RankFalls` | tunnel/h2.go:402-453 | after cancellation every step but those of other callers uses up rank |
| `H2Theorems.AlwaysAWayOut` | tunnel/h2.go:500-516 | after cancellation and until Close has returned some step is open |
| `H2Theorems.CloseReturns` | tunnel/h2.go:500-516 | after cancellation at most 21 steps are left and at most one dial begins, and when none is left Close has returned |

## Left out

- The QUIC, TLS, HTTP/2, HTTP/3, CONNECT-IP and netstack libraries: a dial, exchange, ping, read or write is a step that succeeds or fails, and a connection is an identity.
- The wire format of DNS messages and the DoH headers: an answer is its records, and a failed query one of the error classes.
- Text forms of addresses and of host:port pairs: a target is an address or a name with a port, so a domain that spells an address, and zones, are not represented.
- Registration, configuration, logging, the command line and the wording of errors.
- The values of timeouts, apart from the cache TTLs and the grace timer; a deadline is a step that may come at any time.
- What happens after the resolution of a target: the CONNECT exchange itself, up to the relay of TunnelRelay.
- The failing constructors of both clients: runs begin with the first connection in place.
- Handshake.Conn.Write: a failing client is a count of writes that still succeed, so a write never succeeds in part.
- LockOrder.NoDeadlock: shows that some thread can always move, not that the Go scheduler is fair to each; branches that depend on data are all open there, and dials, exchanges and pings are assumed to return.
- DohSlot.Fields.LiveDoH: whether the connection in the slot has closed is an argument, because the answer comes from the HTTP/2 library.
- The modules on the HTTP/3 client each leave the others' behaviour open: in DohSlot a reconnect is a thread that invalidates the slot, in NameFlight an attempt ends in any way.
- Close called several times on the HTTP/2 client: its sync.Once makes later calls wait for the first, and H2Supervisor models that first call; on the HTTP/3 client, Bundles and LockOrder model all of them.
- TunnelRelay.AlwaysAWayOut: assumes that CancelRead makes reads of the stream fail, that closing the connection or the stream makes reads and writes on them fail, and that a read or write that can proceed does.
- H2Theorems.CloseReturns: assumes that a dial returns, and that reads on a closed bundle and on the closed stack fail.
- H2Supervisor.H2Bundle.Close: the four closing calls of a bundle are one step.
- Handler goroutines of the HTTP/2 client that use the netstack, and its UDP sockets' lifetimes.

# TinyGo `net`: a Dafny model of its sequential core

TinyGo replaces Go's `net` package with a small one. It does not use the
operating system's sockets. Every socket operation goes to a *netdever*, a
backend object that the program installs with `useNetdev`. Until then a
`nopNetdev` answers every call with `ErrNetdevNotSet`. One backend ships with
the package: the WASI preview-2 backend (wasi:sockets 0.2.0). It keeps a
table from small integer descriptors to host sockets and a counter that
hands out the next descriptor.

Above the backend the package has these parts:

- the address types `TCPAddr`, `UDPAddr`, `IPAddr` and `UnixAddr`, their
  `String`, `isWildcard`, `opAddr` and `AddrPort` methods, and their
  resolvers;
- the connection objects `TCPConn` and `UDPConn`, each with its own read and
  write deadlines;
- `DialTCP`, `DialUDP` and `listenTCP`, which issue `Socket`, `Bind`,
  `Connect` and `Listen` calls in a fixed order, and each clean up a failure
  in their own way;
- the ephemeral port counter of `DialUDP`;
- `Dial`, `DialContext`, `Listen` and `parseNetwork`, which dispatch on the
  network name.

The model also covers the route pattern parser of TinyGo's `net/http`
(`parsePattern`).

The modules follow the source files:

| module | file | what it holds |
|---|---|---|
| `Netdever` | netdev.go | socket constants, the netdever calls and replies as data, `nopNetdev`, error kinds, descriptor bookkeeping |
| `Netdev` | netdev.go | the package's `netdev` variable as the class `Net`; it records a ghost trace of every backend call |
| `Wasip2` | netdev_wasip2.go | address conversion, the descriptor table as a step function, and the class `Wasip2Netdev` whose methods are proved against it |
| `Endpoint` | tcpsock.go, udpsock.go | the `String`/`AddrPort`/wildcard logic that `TCPAddr` and `UDPAddr` share |
| `TcpSock` | tcpsock.go | `TCPAddr`, `ResolveTCPAddr`, `TCPConn`, `DialTCP`, `listener`, `listenTCP` |
| `UdpSock` | udpsock.go | `UDPAddr`, `ResolveUDPAddr`, `eport`/`ephemeralPort`, `UDPConn`, `DialUDP` |
| `Dial` | dial.go, lookup.go | `Dial`, `DialTimeout`, `Dialer.Dial`, `DialContext`, `Listen`, `ListenConfig`, `parseNetwork`, the lookup stubs |
| `UnixSock` | unixsock.go | `UnixAddr`, `ResolveUnixAddr` |
| `IPRawSock` | iprawsock.go | `IPAddr`, `ResolveIPAddr`, the `IPConn` stubs |
| `HttpPattern` | http/pattern.go | `parsePattern` and the structure of the patterns it returns |
| `GoStrings`, `Netip`, `Wrappers` | library code the core calls | `IndexByte`, `Atoi`, `Itoa`, `SplitHostPort`, `JoinHostPort`, `net.IP`, `netip.Addr`/`AddrPort`, `Option`/`Result` |

A backend call sequence is stated as a predicate over a list of events, each
a call and its reply:

- `DialTCPSteps`, `ListenTCPSteps` and `DialUDPSteps` cover one operation each.
- `Dial.DialOutcome` covers a dial by network name.

Each dialing method ensures `n.Ran(steps)`, which says:

- exactly those calls reached the installed backend, in that order;
- the backend answered them as it answers any call (`Netdev.Replayed`).

Lemmas about these predicates then state which descriptors are left open
afterwards (`Netdever.Leaked`).

## Model

| member | source | states |
|---|---|---|
| Netdever.NopNetdev | netdev.go:153-175 | every nop call fails with ErrNetdevNotSet; Socket, Accept, Send and Recv give -1; GetHostByName and Addr give the zero Addr; Accept gives the zero AddrPort |
| Netdever.ClampCount | tcpsock.go:178-181 | a negative byte count becomes 0 and any other count is kept |
| Netdever.ReadError | tcpsock.go:182-184 | a read error is absent exactly when the backend reported none; io.EOF passes through unwrapped; every other error becomes a "read" OpError on the conn's network |
| Netdever.WriteError | tcpsock.go:194-196 | a write error is absent exactly when the backend reported none; every error becomes a "write" OpError |
| Netdev.Net.constructor | netdev.go:28-32 | the active backend starts as the nop backend, with no calls made |
| Netdev.Net.UseNetdev | netdev.go:35-37 | useNetdev installs the given backend and makes no call |
| Netdev.Net.InitWasip2 | netdev_wasip2.go:75-81 | the wasip2 init installs a fresh wasip2 backend with an empty table and counter 0 |
| Netdev.Net.Do | netdev.go:53-145 | a call goes to the installed backend, which stays installed; the reply is that backend's answer; the call is appended to the trace; only a wasip2 backend's table can change, by one Step; the deadline travels in the call, not in any per-descriptor state |
| Netdev.Net.DoNext | netdev.go:53-145 | as Do, and a run of calls replayed from a table stays replayed with this call appended |
| Wasip2.Pack | netdev_wasip2.go:26-31 | IPv6 piece i is byte 2i shifted left by 8, or-ed with byte 2i+1 |
| Wasip2.Unpack | netdev_wasip2.go:46-51 | byte 2i is the high byte of piece i and byte 2i+1 its low byte |
| Wasip2.UnpackPack | netdev_wasip2.go:26-51 | unpacking the packed pieces gives back the 16 bytes |
| Wasip2.PackUnpack | netdev_wasip2.go:26-51 | packing the unpacked bytes gives back the 8 pieces |
| Wasip2.WasiRoundTrip | netdev_wasip2.go:18-56 | WasiAddrToTinygo undoes TinygoToWasiAddr for IPv4 and zone-less IPv6 addresses, port included |
| Wasip2.WasiDropsZone | netdev_wasip2.go:26-36 | an IPv6 zone does not survive the conversion to WASI and back |
| Wasip2.TinygoRoundTrip | netdev_wasip2.go:18-56 | TinygoToWasiAddr undoes WasiAddrToTinygo for WASI addresses with zero flow info and scope id |
| Wasip2.ZeroToZero | netdev_wasip2.go:38 | an AddrPort that is neither IPv4 nor IPv6 becomes the zero WASI address |
| Wasip2.FirstIPv4Found | netdev_wasip2.go:93-109 | GetHostByName's walk returns a exactly when a is the first IPv4 address of the stream and only IPv6 addresses come before it |
| Wasip2.FirstIPv4Exhausted | netdev_wasip2.go:96-101 | a stream that ends after IPv6 addresses only gives "no addresses found" |
| Wasip2.StepValid | netdev_wasip2.go:117-225 | every call keeps every table descriptor below the counter, raises the counter by at most one, adds no descriptor except the counter's, and keeps the socket of every descriptor that stays |
| Wasip2.UnknownFd | netdev_wasip2.go:147-225 | a call on a descriptor that is not in the table fails with "invalid socket fd", gives -1 as integer result and leaves the table unchanged |
| Wasip2.NoDatagramSockets | netdev_wasip2.go:131-139 | a socket type other than stream gives -1 and an unsupported-type error and takes no descriptor |
| Wasip2.AllocatesOnSuccess | netdev_wasip2.go:122-193 | a successful Socket or Accept registers the counter's value as the one new descriptor and advances the counter; a failed one gives -1 and changes nothing |
| Wasip2.CloseTwice | netdev_wasip2.go:215-225 | Close removes the descriptor and keeps every other entry, so a second Close of it fails with "invalid socket fd" |
| Wasip2.Unimplemented | netdev_wasip2.go:227-230 | SetSockOpt, and Addr (lines 112-115), always fail and change nothing |
| Wasip2.StepCounter | netdev_wasip2.go:117-120 | a call that hands out a descriptor hands out the counter's value and advances the counter by one; any other call leaves the counter |
| Wasip2.HandedIncreasing | netdev_wasip2.go:117-120 | the descriptors a run of calls hands out strictly increase and lie between the counter before and after the run |
| Wasip2.NeverReused | netdev_wasip2.go:117-120 | no descriptor a run hands out was in the table when the run began |
| Wasip2.RunCounter | netdev_wasip2.go:117-120 | a run of calls never lowers the counter |
| Wasip2.Wasip2Netdev.constructor | netdev_wasip2.go:75-81 | a new backend has an empty table and counter 0 |
| Wasip2.Wasip2Netdev.GetNextFD | netdev_wasip2.go:117-120 | returns the counter's value and advances it by one, leaving the table |
| Wasip2.Wasip2Netdev.GetHostByName | netdev_wasip2.go:83-110 | the reply and table are those of Step for GetHostByName; the loop over the result stream is proved to compute FirstIPv4 |
| Wasip2.Wasip2Netdev.Addr | netdev_wasip2.go:112-115 | the reply and table are those of Step for Addr |
| Wasip2.Wasip2Netdev.Socket | netdev_wasip2.go:122-145 | the reply and the new table are those of Step for Socket |
| Wasip2.Wasip2Netdev.Bind | netdev_wasip2.go:147-155 | the reply and table are those of Step for Bind |
| Wasip2.Wasip2Netdev.Connect | netdev_wasip2.go:157-165 | the reply and table are those of Step for Connect |
| Wasip2.Wasip2Netdev.Listen | netdev_wasip2.go:167-175 | the reply and table are those of Step for Listen |
| Wasip2.Wasip2Netdev.Accept | netdev_wasip2.go:177-193 | the reply and the new table are those of Step for Accept |
| Wasip2.Wasip2Netdev.Send | netdev_wasip2.go:195-203 | the reply and table are those of Step for Send |
| Wasip2.Wasip2Netdev.Recv | netdev_wasip2.go:205-213 | the reply and table are those of Step for Recv |
| Wasip2.Wasip2Netdev.Close | netdev_wasip2.go:215-225 | the reply and the new table are those of Step for Close |
| Wasip2.Wasip2Netdev.SetSockOpt | netdev_wasip2.go:227-230 | the reply and table are those of Step for SetSockOpt |
| Endpoint.HostPortString | tcpsock.go:42-51 | the text of an address splits back, with SplitHostPort, into its host text and its port text, and the port text reads back as the port |
| Endpoint.ToAddrPort | tcpsock.go:30-37 | the port is cut to 16 bits; a 4-byte IP gives IPv4, a 16-byte IP gives IPv6 with the zone, any other length the zero Addr |
| Endpoint.ToAddrPortOfSlice | tcpsock.go:30-37 | an Addr turned into a byte slice and zone comes back unchanged |
| Endpoint.PortWraps | tcpsock.go:36 | ports that differ by 65536 give the same AddrPort, and port -1 gives 65535 |
| Endpoint.UnspecifiedIsNarrower | udpsock.go:164 | the dial check IsUnspecified implies isWildcard, but a nil IP is a wildcard that passes the check |
| TcpSock.AddrPortOf | tcpsock.go:30-37 | nil gives the zero AddrPort; otherwise the port is cut to 16 bits, and an address with an in-range port and a 4-byte zone-less or 16-byte IP comes back from the AddrPort |
| TcpSock.Network | tcpsock.go:40 | always "tcp" |
| TcpSock.String | tcpsock.go:42-51 | nil gives "<nil>"; otherwise SplitHostPort gives back the host text and the decimal port, which Atoi reads back as the port |
| TcpSock.WildcardCases | tcpsock.go:53-58 | isWildcard holds exactly for nil, a nil IP or an unspecified IP; nil and &TCPAddr{} are wildcards |
| TcpSock.OpAddr | tcpsock.go:60-65 | nil stays nil and any other address is itself |
| TcpSock.ResolveSplitError | tcpsock.go:97-100 | an address SplitHostPort rejects is refused with SplitHostPort's error for that address |
| TcpSock.ResolveTCPAddr | tcpsock.go:82-118 | a network other than "tcp"/"tcp4" is refused before the address is read; a result has no zone and holds the port Atoi read from the (":http"-rewritten) address |
| TcpSock.ResolveHostPort | tcpsock.go:102-117 | for a host and any integer port, the port comes back unchanged with no range check; an empty host gives a nil IP; otherwise the lookup's error or its address is returned |
| TcpSock.ResolveParts | tcpsock.go:97-117 | an address that splits into a host and a port Atoi accepts resolves to that port and to the host's nil IP, lookup failure or looked-up address |
| TcpSock.ResolveHttp | tcpsock.go:90-93 | ":http" resolves exactly as ":80" does: a nil IP and port 80 |
| TcpSock.ResolveServiceName | tcpsock.go:90-106 | only the exact text ":http" is rewritten: "host:http" is a port syntax error |
| TcpSock.ResolveBadPort | tcpsock.go:102-106 | a port text Atoi rejects is an error naming that text |
| TcpSock.ResolveWithoutLookup | tcpsock.go:108-110 | an address with an empty host resolves alike under every lookup, so no lookup is made |
| TcpSock.TCPConn.constructor | tcpsock.go:122-129 | a new conn holds its descriptor, network and addresses, and no deadlines |
| TcpSock.TCPConn.Read | tcpsock.go:176-186 | Read makes one Recv on the conn's descriptor with the read deadline; the count is clamped at 0; every error except io.EOF becomes a "read" OpError |
| TcpSock.TCPConn.Write | tcpsock.go:188-198 | Write makes one Send with the write deadline; the count is clamped at 0; every error becomes a "write" OpError |
| TcpSock.TCPConn.Close | tcpsock.go:200-202 | one Close of the descriptor, whose error is returned |
| TcpSock.TCPConn.LocalAddr | tcpsock.go:204-206 | the local address the conn was created with |
| TcpSock.TCPConn.RemoteAddr | tcpsock.go:208-210 | the remote address the conn was created with |
| TcpSock.TCPConn.SetDeadline | tcpsock.go:212-216 | sets both deadlines and succeeds |
| TcpSock.TCPConn.SetKeepAlive | tcpsock.go:218-220 | one SetSockOpt call for SO_KEEPALIVE at level SOL_SOCKET, whose error is returned |
| TcpSock.TCPConn.SetReadDeadline | tcpsock.go:227-230 | sets the read deadline, keeps the write deadline, and succeeds |
| TcpSock.TCPConn.SetWriteDeadline | tcpsock.go:232-235 | sets the write deadline, keeps the read deadline, and succeeds |
| TcpSock.TCPConn.CloseWrite | tcpsock.go:237-239 | always fails as not implemented |
| TcpSock.DeadlinesIndependent | conn_test.go:214-236 | after setting a write and then a read deadline, a Write carries the write deadline and a Read the read deadline |
| TcpSock.DialTCPNoLeak | tcpsock.go:138-172 | a failed DialTCP leaves no descriptor open (a failed Connect is followed by Close), and a successful one leaves only the conn's |
| TcpSock.DialTCPOnNop | tcpsock.go:156-159 | on the nop backend DialTCP stops after Socket with ErrNetdevNotSet |
| TcpSock.DialTCP | tcpsock.go:138-172 | a bad network or an unspecified remote IP fails before any call; otherwise Socket, then Connect to the remote AddrPort, then Close if Connect failed; a new conn holds descriptor, network, laddr and raddr, with no deadlines |
| TcpSock.Listener.Addr | tcpsock.go:263-265 | the address the listener was created with |
| TcpSock.Accept | tcpsock.go:246-257 | one Accept on the listening descriptor; on success a new "tcp" conn with the new descriptor, the listener's address and no remote address |
| TcpSock.CloseListener | tcpsock.go:259-261 | one Close of the listening descriptor, whose error is returned |
| TcpSock.ListenTCPLeak | tcpsock.go:267-284 | listenTCP keeps the descriptor Socket gave it: a failed Bind or Listen leaks it, and success makes it the listener's |
| TcpSock.ListenTCPLeakOnWasip2 | tcpsock.go:273-281 | on the wasip2 backend the descriptor of a failed Bind or Listen stays in the table |
| TcpSock.ListenTCP | tcpsock.go:267-284 | Socket, then Bind to laddr, then Listen with backlog 5, stopping at the first error without closing anything |
| UdpSock.UDPAddr.constructor | udpsock.go:21-25 | a new address holds the given IP, port and zone |
| UdpSock.AddrPortOf | udpsock.go:32-39 | nil gives the zero AddrPort; otherwise the port is cut to 16 bits, and an in-range address of 4 or 16 bytes comes back from the AddrPort |
| UdpSock.Network | udpsock.go:42 | always "udp" |
| UdpSock.String | udpsock.go:44-53 | nil gives "<nil>"; otherwise SplitHostPort gives back the host text and the decimal port |
| UdpSock.OpAddr | udpsock.go:62-67 | nil stays nil and any other address is itself |
| UdpSock.SameAsTCP | udpsock.go:32-60 | String, AddrPort and isWildcard of a UDPAddr agree with those of the TCPAddr with the same fields |
| UdpSock.ResolveUDP | udpsock.go:84-115 | a network other than "udp"/"udp4" is refused; a result holds the port Atoi read from the address |
| UdpSock.ResolveLikeTCP | udpsock.go:84-115 | every address but ":http" resolves as ResolveTCPAddr resolves it: same errors, same IP and port |
| UdpSock.ResolveUDPSplitError | udpsock.go:94-97 | an address SplitHostPort rejects is refused with SplitHostPort's error for that address |
| UdpSock.ResolveUDPHttp | udpsock.go:97-106 | there is no ":http" rewrite: ":http" is a port syntax error |
| UdpSock.ResolveUDPAddr | udpsock.go:84-115 | a new address with the resolved IP and port and no zone, or the error and nil |
| UdpSock.NextEport | udpsock.go:132-137 | keeps eport within 49151..65535 and counts up by one below 65535 |
| UdpSock.EportCycle | udpsock.go:128-138 | after k calls eport is 49151 + k mod 16385: the first call gives 49152, and the call after 65535 gives 49151, one below the dynamic range |
| UdpSock.PortAllocator.constructor | udpsock.go:129 | eport starts at 49151 |
| UdpSock.PortAllocator.EphemeralPort | udpsock.go:131-138 | advances eport as NextEport does and returns its new value |
| UdpSock.DrawPorts | udpsock.go:131-138 | k calls from the start give the values of the cycle in order, all within 49151..65535 |
| UdpSock.UDPConn.constructor | udpsock.go:119-126 | a new conn holds its descriptor, network and addresses, and no deadlines |
| UdpSock.UDPConn.SyscallConn | udpsock.go:205-207 | always fails as not implemented |
| UdpSock.UDPConn.Read | udpsock.go:211-221 | one Recv with the read deadline; the count is clamped at 0; only non-EOF errors are wrapped as "read" OpErrors |
| UdpSock.UDPConn.Write | udpsock.go:223-233 | one Send with the write deadline; the count is clamped at 0; every error is wrapped as a "write" OpError |
| UdpSock.UDPConn.ReadFrom | udpsock.go:236-238 | always fails, with count 0 and a nil address |
| UdpSock.UDPConn.ReadMsgUDP | udpsock.go:247-250 | always fails, with zero counts and flags and a nil address |
| UdpSock.UDPConn.WriteTo | udpsock.go:253-255 | always fails, with count 0 |
| UdpSock.UDPConn.WriteMsgUDP | udpsock.go:265-267 | always fails, with zero counts |
| UdpSock.UDPConn.Close | udpsock.go:269-271 | one Close of the descriptor, whose error is returned |
| UdpSock.UDPConn.LocalAddr | udpsock.go:273-275 | the local address the conn was created with |
| UdpSock.UDPConn.RemoteAddr | udpsock.go:277-279 | the remote address the conn was created with |
| UdpSock.UDPConn.SetDeadline | udpsock.go:281-285 | sets both deadlines and succeeds |
| UdpSock.UDPConn.SetReadDeadline | udpsock.go:287-290 | sets the read deadline, keeps the write deadline, and succeeds |
| UdpSock.UDPConn.SetWriteDeadline | udpsock.go:292-295 | sets the write deadline, keeps the read deadline, and succeeds |
| UdpSock.DialUDPNoLeak | udpsock.go:173-200 | a failed DialUDP leaves no descriptor open (a failed Bind or Connect is followed by Close), and a successful one leaves only the conn's |
| UdpSock.DialUDPOnWasip2 | udpsock.go:173-176 | on the wasip2 backend DialUDP stops at Socket with an unsupported-type error and the table is unchanged |
| UdpSock.DialUDP | udpsock.go:147-201 | a bad network or an unspecified remote IP fails before any call and changes nothing; otherwise a local port 0 is replaced in the caller's laddr by the next ephemeral port; then Socket, Bind, Connect as DialUDPSteps says; a new conn holds the network and the (defaulted) addresses, and for a nil laddr its new local address has the nil IP, no zone and the ephemeral port just taken |
| UdpSock.OrEmpty | udpsock.go:156-163 | nil becomes a new empty address; any other address is kept |
| UdpSock.SetLocalPort | udpsock.go:169-171 | a local port 0 becomes the next ephemeral port, in place; any other port is kept and the counter untouched |
| UdpSock.ConnectUDP | udpsock.go:173-200 | datagram Socket, Bind to the local IP and port, Connect to the remote IP and port, with Close after a failed Bind or Connect |
| Dial.DialOtherNetwork | dial.go:152 | a network that is neither TCP nor UDP is refused and opens nothing |
| Dial.DialNoLeak | dial.go:133-153 | a dial by name leaves no descriptor open when it fails, and only the conn's when it succeeds |
| Dial.DialContext | dial.go:133-153 | tcp names resolve then DialTCP with a nil laddr; udp names resolve then DialUDP with a nil laddr, which moves the ephemeral port counter as EportAfterDial says; a resolve error comes before any call and gives a nil Conn; other names fail with no call and a nil Conn; after a failed DialTCP or DialUDP the Conn is not nil but holds a nil pointer; there is an error exactly when there is no live conn; the conn is TCP exactly for tcp names; a live conn is new and holds the network and the resolved remote address, with no local address for TCP and, for UDP, a local address with the nil IP and the new ephemeral port (AsDialed) |
| Dial.DialByTCP | dial.go:138-143 | a resolve error gives a nil Conn and no call; otherwise DialTCP's pointer is returned inside the Conn, nil when DialTCP failed; a live TCPConn holds the network, no local address and the resolved remote address; the outcome DialOutcome describes |
| Dial.DialByUDP | dial.go:144-149 | a resolve error gives a nil Conn and no call; otherwise DialUDP's pointer is returned inside the Conn, nil when DialUDP failed; the port counter as EportAfterDial says; a live UDPConn holds the network, a local address with the nil IP and the new ephemeral port, and the resolved remote IP and port; the outcome DialOutcome describes |
| Dial.DialerDial | dial.go:111-113 | Dialer.Dial has DialContext's outcome, Conn, nil pointer, conn fields and port counter; the dialer's fields play no part |
| Dial.Dial | dial.go:84-87 | Dial has DialContext's outcome, Conn, nil pointer, conn fields and port counter |
| Dial.DialTimeout | dial.go:99-102 | DialTimeout has Dial's outcome, Conn, nil pointer, conn fields and port counter, whatever the timeout |
| Dial.DialTakesPort | dial.go:144-149 | a dial by name moves the ephemeral port counter exactly when its first backend call opens a datagram socket |
| Dial.NopDialHoldsNil | dial.go:138-143 | Dial("tcp", ":80") on the nop backend resolves, so it goes on to DialTCP, and fails with ErrNetdevNotSet, whatever the table and the port counter |
| Dial.NopDialTypedNil | dial.go:138-143 | Dial("tcp", ":80") on a fresh Net, whose backend is the nop one, returns a Conn that is not nil but holds a nil pointer, together with ErrNetdevNotSet |
| Dial.DialContextNilOnError | dial.go:133-153 | DialContext with a failed DialTCP or DialUDP giving a nil Conn: a Conn exactly when there is no error, and that Conn is live |
| Dial.Listen | dial.go:233-248 | only "tcp"/"tcp4"; a resolve error comes before any call; then listenTCP's calls and result |
| Dial.ListenConfig.Listen | dial.go:183-185 | always fails as not implemented |
| Dial.ListenConfig.ListenPacket | dial.go:191-193 | always fails as not implemented |
| Dial.LookupPort | lookup.go:18-20 | always fails as not implemented, with port 0 |
| Dial.LookupProtocol | lookup.go:24-26 | always fails as not implemented |
| Dial.Dtoi | dial.go:215-216 | reads the leading decimal digits: a success has read at least one digit, stopped at a non-digit or the end, and has a value below 0xFFFFFF; it reads the whole text exactly when the text is such a number |
| Dial.ParseNetwork | dial.go:195-225 | a protocol in a result is between 0 and 0xFFFFFF |
| Dial.ParseNetworkPlain | dial.go:196-210 | without a colon, the tcp, udp, unix and (without needsProto) ip names give protocol 0, and anything else is an unknown network |
| Dial.ParseNetworkDecimal | dial.go:211-222 | an ip family, a colon and any decimal text below 0xFFFFFF give the family and the value of the text, leading zeros included ("ip4:007" gives protocol 7) |
| Dial.ParseNetworkProto | dial.go:211-222 | "family:number" gives back the ip family and the number, split at the last colon |
| Dial.ParseNetworkNamedProto | dial.go:214-221 | a protocol text that is not such a number goes to lookupProtocol and fails |
| Dial.ParseNetworkOtherFamily | dial.go:211-224 | a prefix other than ip, ip4 or ip6 is an unknown network naming the whole text |
| UnixSock.Network | unixsock.go:25-27 | the address's Net field |
| UnixSock.String | unixsock.go:29-34 | nil gives "<nil>", otherwise the name |
| UnixSock.OpAddr | unixsock.go:40-45 | nil stays nil and any other address is itself |
| UnixSock.ResolveUnixAddr | unixsock.go:53-60 | succeeds exactly for "unix", "unixgram" and "unixpacket", and otherwise is UnknownNetworkError of the network |
| UnixSock.ResolveRoundTrip | unixsock.go:25-60 | a resolved address gives back the network from Network and the address from String, and is a wildcard exactly when the address text is empty |
| IPRawSock.Network | iprawsock.go:39 | always "ip" |
| IPRawSock.String | iprawsock.go:41-50 | nil gives "<nil>"; otherwise the IP text, followed by "%zone" when there is a zone, with no port and no brackets |
| IPRawSock.StringIsTCPHost | iprawsock.go:41-50 | an IPAddr's text is the host part of the TCPAddr with the same IP and zone |
| IPRawSock.WildcardLikeTCP | iprawsock.go:52-57 | isWildcard holds exactly for nil, a nil IP or an unspecified IP, as for TCPAddr |
| IPRawSock.OpAddr | iprawsock.go:59-64 | nil stays nil and any other address is itself |
| IPRawSock.ResolveIPAddr | iprawsock.go:79-81 | always fails as not implemented |
| IPRawSock.IPConn.SyscallConn | iprawsock.go:91-93 | always fails as not implemented |
| IPRawSock.IPConn.ReadMsgIP | iprawsock.go:102-105 | always fails, with zero counts and flags and a nil address |
| IPRawSock.IPConn.ReadFrom | iprawsock.go:108-110 | always fails, with count 0 and a nil address |
| IPRawSock.IPConn.WriteToIP | iprawsock.go:113-115 | always fails, with count 0 |
| IPRawSock.IPConn.WriteTo | iprawsock.go:118-120 | always fails, with count 0 |
| HttpPattern.Pattern.String | http/pattern.go:39 | the text the pattern was parsed from |
| HttpPattern.Pattern.LastSegment | http/pattern.go:41-43 | the last of the segments |
| HttpPattern.ValidNameChars | http/pattern.go:188-199 | a valid wildcard name does not start with a digit and holds none of '/', '{', '}', '.', '$' |
| HttpPattern.Unescape | http/pattern.go:201-208 | text without '%' is its own unescaping |
| HttpPattern.UnescapeEscape | http/pattern.go:201-208 | unescaping undoes the escaping of '%' as "%25" |
| HttpPattern.PathUnescape | http/pattern.go:201-208 | the unescaped text, or the text itself when an escape is invalid |
| HttpPattern.PathUnescapeEscaped | http/pattern.go:148-151 | a literal segment written with its '%' escaped comes back as itself |
| HttpPattern.ParsePiece | http/pattern.go:148-182 | a literal has no '{' and is the unescaped text; "{$}" is accepted only at the end; a wildcard is "{name}" or, only at the end, "{name...}", with a valid name not seen before; every error has a '{' |
| HttpPattern.SegmentStep | http/pattern.go:132-184 | one turn of the loop: an error offset within the segment's text; a trailing "/" ends in the anonymous multi wildcard; "{$}" ends in the "/" literal; otherwise the rest shrinks and the segments grow by one well-formed segment |
| HttpPattern.PieceStep | http/pattern.go:148-182 | a segment's piece ends the parse on an error (at its offset) or on "{$}", and otherwise appends one segment and records a wildcard's name |
| HttpPattern.ParseSegments | http/pattern.go:132-184 | every error of the path loop is at an offset inside the path |
| HttpPattern.ParseSegmentsStep | http/pattern.go:132-184 | the loop takes one SegmentStep at a time |
| HttpPattern.SplitMethod | http/pattern.go:97-104 | the method is the text before the first space or tab, without blanks, and the rest follows it and ends as the text does; with no blank there is no method and the rest is the whole text |
| HttpPattern.SplitMethodBlank | http/pattern.go:98-99 | with a blank, the method is the text before the first space or tab, and the rest is the text after it with its leading spaces and tabs trimmed |
| HttpPattern.SplitAfterMethod | http/pattern.go:98-99 | a blank-free method followed by a space splits into that method and the trimmed text after the space |
| HttpPattern.HostPath | http/pattern.go:110-130 | a rest without '/' is exactly the "host/path missing /" error at the offset after the method; otherwise the host is the text before the first '/' and the path the text from it on; the host holds no '{'; for a method other than "" and CONNECT the path is clean; errors lie within the text |
| HttpPattern.HostCheck | http/pattern.go:119-130 | a host with '{' is refused at the offset of that '{'; then an unclean path under a method other than "" or CONNECT is refused at the offset of the path; otherwise the parts are returned |
| HttpPattern.PathOnly | http/pattern.go:97-118 | a blank-free text that starts with '/' has no method, an empty host, and is all path |
| HttpPattern.MissingSlashAfterMethod | http/pattern.go:110-116 | a method (or none), a space, then text with no '/' fails with "host/path missing /" at the offset just past the space |
| HttpPattern.MissingSlashNoMethod | http/pattern.go:101-116 | a non-empty text with no blank and no '/' fails with "host/path missing /" at offset 0 |
| HttpPattern.SplitPattern | http/pattern.go:97-130 | the part before the loop: errors lie within the text; a result path starts with '/', ends as the text does, and is clean unless the method is "" or CONNECT |
| HttpPattern.SplitPatternMethod | http/pattern.go:97-107 | the method is empty or a valid method, holds no blank, and is the text before the first blank |
| HttpPattern.Parse | http/pattern.go:86-186 | "empty pattern" exactly for the empty text; other errors at an offset within the text; a pattern keeps the text as its string and has no '{' in its host |
| HttpPattern.StepKeepsLoopState | http/pattern.go:132-184 | one turn of the loop keeps the segments well formed, records every wildcard name, and stops after a multi segment |
| HttpPattern.ParseSegmentsWellFormed | http/pattern.go:132-184 | the whole loop, from a good state, gives well-formed segments |
| HttpPattern.ParseWellFormed | http/pattern.go:161-182 | in a parsed pattern only the last segment can be multi, every wildcard name is valid, and no two wildcards share a name |
| HttpPattern.TrailingSlashSegments | http/pattern.go:137-140 | a path ending in '/' ends with the anonymous multi wildcard |
| HttpPattern.TrailingSlash | http/pattern.go:137-140 | a pattern ending in '/' ends with the anonymous multi wildcard |
| HttpPattern.DollarPiece | http/pattern.go:157-167 | a last segment text ending in "{$}" parses only to the "{$}" end mark, or is an error |
| HttpPattern.DollarStep | http/pattern.go:133-167 | a loop turn that does not stop leaves a path that still ends in "{$}" |
| HttpPattern.DollarAhead | http/pattern.go:142-147 | the part of a path from a '/' on still ends in the "{$}" the path ends in |
| HttpPattern.DollarSegments | http/pattern.go:133-167 | a path loop over a path ending in "{$}" succeeds only with the "/" literal as its last segment |
| HttpPattern.DollarEnd | http/pattern.go:161-166 | a parsed pattern whose path ends in "{$}" ends with the "/" literal that "{$}" stands for |
| HttpPattern.WildPiece | http/pattern.go:160-182 | "{name}" with a valid name is the wildcard, or "duplicate wildcard name" once the name is taken |
| HttpPattern.MultiPiece | http/pattern.go:168-171 | "{name...}" with more path after it is "{...} wildcard not at end" |
| HttpPattern.BadPiece | http/pattern.go:172-177 | "{name}" around a name that is not empty, not "$", has no '.' and is not valid is "bad wildcard name" |
| HttpPattern.FirstSegment | http/pattern.go:133-147 | the first loop turn over a path cuts the segment before the next '/' and goes on with the rest |
| HttpPattern.FirstWildcard | http/pattern.go:178-182 | a first segment "{n}" with more path after it goes on with n taken and one wildcard segment |
| HttpPattern.LastSegmentErr | http/pattern.go:133-147 | a last segment whose text is an error ends the loop with that error at the segment's offset |
| HttpPattern.WildSegmentLast | http/pattern.go:178-180 | a last segment "{n}" with n already taken fails as a duplicate at the offset of its text |
| HttpPattern.PathParse | http/pattern.go:86-186 | a blank-free text starting with '/' whose path loop fails is refused with the loop's error |
| HttpPattern.MultiNotLast | http/pattern.go:168-171 | "/{n...}/" followed by more path fails with "{...} wildcard not at end" at offset 1 |
| HttpPattern.DuplicateLoop | http/pattern.go:132-184 | the loop over "/{n}/{n}" takes the name in its first turn and fails as a duplicate in its second |
| HttpPattern.DuplicateName | http/pattern.go:178-180 | "/{n}/{n}" fails with "duplicate wildcard name" at the offset of the second "{n}" |
| HttpPattern.BadName | http/pattern.go:175-177 | "/{n}" with an invalid name n fails with "bad wildcard name" at offset 1 |
| HttpPattern.ParsePattern | http/pattern.go:86-186 | parsePattern computes Parse |
| HttpPattern.PathSegments | http/pattern.go:132-184 | the loop over the path computes ParseSegments |

## Left out

- I/O, blocking, cancellation and concurrency are not modelled. Backend calls are atomic steps, and the `eport` counter is used by one thread at a time.
- conn_test.go runs goroutines, timers and random data. Only its sequential deadline check is modelled (`TcpSock.DeadlinesIndependent`).
- The wasip2 backend's diagnostic `fmt.Println` lines (netdev_wasip2.go:113, 150, 160, 170, 180, 198, 208, 218, 228) are not modelled: output to stdout has no effect on any result or on the descriptor table.
- Deadlines are opaque `Time` values that are stored and passed to `Send` and `Recv`. Time never passes.
- tcp_wasip2.go and udp_wasip2.go are not part of this model. They wrap the host's sockets in a poll-and-sleep loop. The host is the `Wasip2.Host` value instead: one function per kind of request, each giving the host's answer.
- http/transport.go is not part of this model. It only delegates to code that is not shown.
- lookup_unix.go and lookup_windows.go are not part of this model. `LookupPort` and `lookupProtocol` are modelled as the failures they are.
- TCPConn.SetKeepAlivePeriod is not modelled, because it passes a floating-point number of seconds to the backend.
- A backend other than the nop and wasip2 ones is a fixed function from call to reply (`Netdev.DriverDev`). A driver whose answers depend on its own state is not modelled.
- Errors are kinds (`Netdever.NetError`), not formatted messages. `OpError` keeps its op, network and cause, but not the conn's two addresses.
- Name resolution (`GetHostByName`) is taken as the installed backend's answer (`Net.Lookup`), and it is not recorded in the call trace.
- The library helpers are written out over ASCII text: `SplitHostPort`, `JoinHostPort`, `Atoi`, `Itoa`, `ipEmptyString`, `IP.IsUnspecified`, `validMethod`, `cleanPath`, `url.PathUnescape`, `isLetter`/`isDigit`. `cleanPath` is stood for by the paths it leaves alone (`HttpPattern.IsCleanPath`). `url.PathUnescape` takes characters as bytes. `ipEmptyString` writes IPv6 as all eight groups, without the "::" shortening of the longest zero run that Go applies; contracts use only that its text has no brackets and where its ':' are.
- GoStrings.Atoi: does not model strconv's range check against the width of int, because the core stores whatever Atoi returns.
- Four calls in tcpsock.go do not match the netdev.go signatures: line 117 stores a `netip.Addr` in an IP field, and lines 161, 247 and 273 pass other arguments to `Connect`, `Accept` and `Bind`. They are modelled with the netdev.go signatures. Line 117 converts with `AsSlice`, as udpsock.go:114 does. `Bind` and `Connect` take the address's `AddrPort`. `Accept` drops the peer it is given.
- `_AF_INET6` is not defined in the files shown. It is taken as 0xa, which differs from `AF_INET`.
- The zero WASI `IPSocketAddress` is taken to be the IPv4 case with all fields zero.
- TcpSock.ResolveTCPAddr: does not state in its own contract what is returned for each host. That is stated by `ResolveParts`, `ResolveHostPort`, `ResolveBadPort` and, for an address SplitHostPort rejects, `ResolveSplitError`.
- Dial.ParseNetwork: does not state the outcome of each case in its own contract. That is stated by the `ParseNetwork*` lemmas: `ParseNetworkPlain` (no colon), `ParseNetworkDecimal` (any decimal protocol text, leading zeros included), `ParseNetworkNamedProto` (other protocol text) and `ParseNetworkOtherFamily` (a prefix that is not an ip family).
- HttpPattern.ParsePattern: computes the part before the path with the `SplitPattern` function, and only the path loop (`PathSegments`) is written as a loop.
- HttpPattern.PathSegments: classifies each segment's text with the `ParsePiece` function rather than statement by statement.
- The context argument of `DialContext` and `ListenConfig` is ignored, as in the source. `Dialer.LocalAddr` and the other dialer fields are not read.

## Findings

| source | as written | input that shows it | evidently intended | confidence | as-written member | corrected member |
|---|---|---|---|---|---|---|
| dial.go:143, dial.go:149 | `return DialTCP(...)` and `return DialUDP(...)` put the nil `*TCPConn` or `*UDPConn` of a failed dial into the `Conn` interface, so the caller gets a non-nil `Conn` together with the error | `Dial("tcp", ":80")` with no backend installed: the address resolves, DialTCP fails with ErrNetdevNotSet | a nil `Conn` whenever the error is not nil | not executed | Dial.NopDialTypedNil | Dial.DialContextNilOnError |

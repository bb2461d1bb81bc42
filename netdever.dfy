/**
 * The netdever interface: the L3/L4 socket layer a network driver provides to
 * the net package. A call to the interface is a `Call` value and its results a
 * `Reply`; a backend is anything that answers calls. The nopNetdev backend,
 * which fails every call, is the function `NopNetdev`.
 */
module Netdever {
  import opened Wrappers
  import opened Netip
  import opened GoStrings

  const AF_INET := 0x2
  /** Used by the wasip2 backend but defined elsewhere; only its being distinct from AF_INET matters. */
  const AF_INET6 := 0xa
  const SOCK_STREAM := 0x1
  const SOCK_DGRAM := 0x2
  const SOL_SOCKET := 0x1
  const SO_KEEPALIVE := 0x9
  const SO_LINGER := 0xd
  const SOL_TCP := 0x6
  const TCP_KEEPINTVL := 0x5
  const IPPROTO_TCP := 0x6
  const IPPROTO_UDP := 0x11
  /** Not a real IP protocol number: asks a device for a TLS socket. */
  const IPPROTO_TLS := 0xFE
  const F_SETFL := 0x4

  /** A time.Time deadline. It is stored and passed on, never compared with a clock. */
  datatype Time = Time(instant: int)

  /** The zero time.Time, which means "no deadline". */
  const NoDeadline := Time(0)

  /** The interface{} value handed to SetSockOpt. */
  datatype OptValue = BoolOpt(b: bool) | OtherOpt(code: int)

  /** The errors of the core, as kinds rather than formatted text. */
  datatype NetError =
    | NetdevNotSet                                  // ErrNetdevNotSet
    | DriverError(code: int)                        // an error a driver or the host reports
    | InvalidSocketFd                               // "wasip2: invalid socket fd"
    | UnsupportedSocketType(stype: int)             // "wasip2: unsupported socket type %d"
    | AcceptFailed(cause: NetError)                 // "failed to accept connection: %s"
    | ResolveFailed(code: int)                      // "failed to resolve address: %s"
    | ResolveNextFailed(code: int)                  // "failed to get resolved address: %s"
    | NoAddressesFound                              // "no addresses found"
    | NotImplemented(what: string)                  // the TODO stubs and "... not implemented"
    | NetworkNotSupported(network: string)          // "Network '%s' not supported"
    | UnknownNetwork(network: string)               // UnknownNetworkError
    | AddrError(why: SplitError, addr: string)      // from SplitHostPort
    | PortSyntax(port: string)                      // "Error parsing port '%s' in address: %s"
    | LookupFailed(host: string, cause: NetError)   // "Lookup of host name '%s' failed: %s"
    | LocalhostUnavailable                          // "Sorry, localhost isn't available on Tinygo"
    | EOF                                           // io.EOF
    | OpError(op: string, net: string, err: NetError)

  /** One call of the netdever interface, with its arguments. */
  datatype Call =
    | GetHostByName(name: string)
    | InterfaceAddr
    | Socket(domain: int, stype: int, protocol: int)
    | Bind(fd: int, ip: AddrPort)
    | Connect(fd: int, host: string, ip: AddrPort)
    | Listen(fd: int, backlog: int)
    | Accept(fd: int)
    | Send(fd: int, buf: seq<Byte>, flags: int, deadline: Time)
    | Recv(fd: int, size: nat, flags: int, deadline: Time)
    | Close(fd: int)
    | SetSockOpt(fd: int, level: int, opt: int, value: OptValue)

  /**
   * The results of a call: the integer result (a descriptor or a byte count),
   * the address result, the peer of an accepted connection and the error. Each
   * call reads only the slots its signature returns.
   */
  datatype Reply = Reply(n: int, addr: Addr, peer: AddrPort, err: Option<NetError>)

  function ErrReply(err: Option<NetError>): Reply { Reply(0, Invalid, ZeroAddrPort, err) }
  function IntReply(n: int, err: Option<NetError>): Reply { Reply(n, Invalid, ZeroAddrPort, err) }
  function AddrReply(a: Addr, err: Option<NetError>): Reply { Reply(0, a, ZeroAddrPort, err) }
  function AcceptReply(n: int, peer: AddrPort, err: Option<NetError>): Reply { Reply(n, Invalid, peer, err) }

  /** The calls whose signature has an integer result. */
  predicate ReturnsInt(c: Call) {
    c.Socket? || c.Accept? || c.Send? || c.Recv?
  }

  /** The calls whose signature has a netip.Addr result. */
  predicate ReturnsAddr(c: Call) {
    c.GetHostByName? || c.InterfaceAddr?
  }

  /**
   * nopNetdev: every call fails with ErrNetdevNotSet, integer results are -1 and
   * address results are zero values. It has no state, so it changes nothing.
   */
  function NopNetdev(c: Call): (r: Reply)
    ensures r.err == Some(NetdevNotSet)
    ensures ReturnsInt(c) ==> r.n == -1
    ensures ReturnsAddr(c) ==> r.addr == Invalid
    ensures c.Accept? ==> r.peer == ZeroAddrPort
  {
    match c
    case GetHostByName(_) => AddrReply(Invalid, Some(NetdevNotSet))
    case InterfaceAddr => AddrReply(Invalid, Some(NetdevNotSet))
    case Socket(_, _, _) => IntReply(-1, Some(NetdevNotSet))
    case Bind(_, _) => ErrReply(Some(NetdevNotSet))
    case Connect(_, _, _) => ErrReply(Some(NetdevNotSet))
    case Listen(_, _) => ErrReply(Some(NetdevNotSet))
    case Accept(_) => AcceptReply(-1, ZeroAddrPort, Some(NetdevNotSet))
    case Send(_, _, _, _) => IntReply(-1, Some(NetdevNotSet))
    case Recv(_, _, _, _) => IntReply(-1, Some(NetdevNotSet))
    case Close(_) => ErrReply(Some(NetdevNotSet))
    case SetSockOpt(_, _, _, _) => ErrReply(Some(NetdevNotSet))
  }

  /** A call made on the active backend together with the reply it got. */
  datatype Event = Event(call: Call, reply: Reply)

  /** The descriptor a successful Socket or Accept hands out. */
  function Opened(e: Event): set<int> {
    if (e.call.Socket? || e.call.Accept?) && e.reply.err.None? then {e.reply.n} else {}
  }

  /**
   * The descriptors a run of calls opened and did not close again. Every Close
   * gives its descriptor back, whatever its reply: the wasip2 backend forgets
   * the descriptor before it closes the host socket.
   */
  function Leaked(steps: seq<Event>): set<int> {
    if steps == [] then {}
    else
      var last := steps[|steps| - 1];
      var before := Leaked(steps[..|steps| - 1]);
      if last.call.Close? then before - {last.call.fd} else before + Opened(last)
  }

  /** The byte count a conn reports: the -1 of a failed call becomes 0. */
  function ClampCount(n: int): (r: nat)
    ensures n >= 0 ==> r == n
    ensures n < 0 ==> r == 0
  {
    if n < 0 then 0 else n
  }

  /** The error a conn's Read reports: everything except io.EOF is wrapped in OpError{Op: "read"}. */
  function ReadError(net: string, err: Option<NetError>): (r: Option<NetError>)
    ensures r.None? <==> err.None?
    ensures err == Some(EOF) ==> r == err
    ensures err.Some? && err.value != EOF ==> r == Some(OpError("read", net, err.value))
  {
    if err.Some? && err.value != EOF then Some(OpError("read", net, err.value)) else err
  }

  /** The error a conn's Write reports: every error is wrapped in OpError{Op: "write"}. */
  function WriteError(net: string, err: Option<NetError>): (r: Option<NetError>)
    ensures r.None? <==> err.None?
    ensures err.Some? ==> r == Some(OpError("write", net, err.value))
  {
    if err.Some? then Some(OpError("write", net, err.value)) else None
  }
}

/**
 * The netdever backend over WASI preview 2 sockets (wasi:sockets 0.2.0). It
 * keeps a table from descriptors to host sockets and a counter that hands out
 * the next descriptor. The host itself (socket creation, bind, connect, ...,
 * name resolution) is the `Host` value the backend was created with: each of
 * its members gives the host's answer to one kind of request.
 */
module Wasip2 {
  import opened Wrappers
  import opened Netip
  import opened Netdever

  /** Eight 16-bit pieces of an IPv6 address, as wasi:sockets carries it. */
  type Pieces8 = s: seq<Uint16> | |s| == 8 witness [0, 0, 0, 0, 0, 0, 0, 0]

  /** wasi:sockets/network ip-address. */
  datatype IPAddress = IPv4Address(a4: Bytes4) | IPv6Address(a8: Pieces8)

  /** wasi:sockets/network ip-socket-address. */
  datatype IPSocketAddress =
    | IPv4Socket(port: Uint16, address4: Bytes4)
    | IPv6Socket(port: Uint16, flowInfo: int, address6: Pieces8, scopeId: int)

  /** The zero network.IPSocketAddress: the first case of the variant with zero fields. */
  const ZeroSocketAddress := IPv4Socket(0, [0, 0, 0, 0])

  /** wasi:sockets/network ip-address-family. */
  datatype AddressFamily = IPv4Family | IPv6Family

  /** A host socket resource. */
  type SockId = nat

  /** One result of resolve-next-address: an error, the end of the stream, or an address. */
  datatype NextAddress = NextErr(code: int) | NextNone | NextAddr(ip: IPAddress)

  /**
   * What the WASI host answers. `resolve` gives the whole stream of
   * resolve-next-address results; past its end the stream yields none.
   */
  datatype Host = Host(
    createTCP: AddressFamily -> Result<SockId, NetError>,
    bind: (SockId, IPSocketAddress) -> Option<NetError>,
    connect: (SockId, string, IPSocketAddress) -> Option<NetError>,
    listen: (SockId, int) -> Option<NetError>,
    accept: SockId -> Result<(SockId, IPSocketAddress), NetError>,
    send: (SockId, seq<Byte>, int, Time) -> (int, Option<NetError>),
    recv: (SockId, nat, int, Time) -> (int, Option<NetError>),
    close: SockId -> Option<NetError>,
    resolve: string -> Result<seq<NextAddress>, int>)

  /** uint16(hi)<<8 | uint16(lo). */
  function Word(hi: Byte, lo: Byte): Uint16 {
    hi * 256 + lo
  }

  /** byte(v >> 8). */
  function High(v: Uint16): Byte {
    v / 256
  }

  /** byte(v & 0xFF). */
  function Low(v: Uint16): Byte {
    v % 256
  }

  lemma WordSplits(hi: Byte, lo: Byte)
    ensures High(Word(hi, lo)) == hi && Low(Word(hi, lo)) == lo
  {
  }

  lemma SplitWords(v: Uint16)
    ensures Word(High(v), Low(v)) == v
  {
  }

  /** Piece i of an IPv6 address is bytes 2i and 2i+1, big-endian. */
  function Pack(as16: Bytes16): (p: Pieces8)
    ensures forall i :: 0 <= i < 8 ==> p[i] == Word(as16[2 * i], as16[2 * i + 1])
  {
    seq(8, i requires 0 <= i < 8 => Word(as16[2 * i], as16[2 * i + 1]))
  }

  /** Bytes 2i and 2i+1 are the high and low halves of piece i. */
  function Unpack(p: Pieces8): (as16: Bytes16)
    ensures forall i :: 0 <= i < 8 ==> as16[2 * i] == High(p[i]) && as16[2 * i + 1] == Low(p[i])
  {
    seq(16, k requires 0 <= k < 16 => if k % 2 == 0 then High(p[k / 2]) else Low(p[k / 2]))
  }

  lemma UnpackPack(as16: Bytes16)
    ensures Unpack(Pack(as16)) == as16
  {
    var p := Pack(as16);
    var b := Unpack(p);
    forall i | 0 <= i < 8
      ensures b[2 * i] == as16[2 * i] && b[2 * i + 1] == as16[2 * i + 1]
    {
      WordSplits(as16[2 * i], as16[2 * i + 1]);
    }
    forall k | 0 <= k < 16
      ensures b[k] == as16[k]
    {
      if k % 2 == 0 {
        assert k == 2 * (k / 2);
      } else {
        assert k == 2 * (k / 2) + 1;
      }
    }
  }

  lemma PackUnpack(p: Pieces8)
    ensures Pack(Unpack(p)) == p
  {
    var b := Unpack(p);
    var q := Pack(b);
    forall i | 0 <= i < 8
      ensures q[i] == p[i]
    {
      SplitWords(p[i]);
    }
  }

  /** TinygoToWasiAddr: IPv4 maps one to one, IPv6 is packed into pieces, anything else is the zero value. */
  function TinygoToWasiAddr(ip: AddrPort): IPSocketAddress {
    if ip.addr.Is4() then IPv4Socket(ip.port, ip.addr.a4)
    else if ip.addr.Is6() then IPv6Socket(ip.port, 0, Pack(ip.addr.a16), 0)
    else ZeroSocketAddress
  }

  /** WasiAddrToTinygo: IPv4 maps one to one, IPv6 pieces are unpacked into a zone-less address. */
  function WasiAddrToTinygo(addr: IPSocketAddress): AddrPort {
    match addr
    case IPv4Socket(port, a) => AddrPort(V4(a), port)
    case IPv6Socket(port, _, a, _) => AddrPort(V6(Unpack(a), ""), port)
  }

  /** Converting to the WASI form and back gives the address and port back, for zone-less addresses. */
  lemma WasiRoundTrip(ip: AddrPort)
    requires ip.addr.V4? || (ip.addr.V6? && ip.addr.zone == "")
    ensures WasiAddrToTinygo(TinygoToWasiAddr(ip)) == ip
  {
    if ip.addr.V6? {
      UnpackPack(ip.addr.a16);
    }
  }

  /** A zone is lost on the way: only the bytes and the port survive. */
  lemma WasiDropsZone(ip: AddrPort)
    requires ip.addr.V6?
    ensures WasiAddrToTinygo(TinygoToWasiAddr(ip)) == AddrPort(V6(ip.addr.a16, ""), ip.port)
  {
    UnpackPack(ip.addr.a16);
  }

  /** The WASI form survives the trip through a netip.AddrPort when flow info and scope are zero. */
  lemma TinygoRoundTrip(addr: IPSocketAddress)
    requires addr.IPv6Socket? ==> addr.flowInfo == 0 && addr.scopeId == 0
    ensures TinygoToWasiAddr(WasiAddrToTinygo(addr)) == addr
  {
    if addr.IPv6Socket? {
      PackUnpack(addr.address6);
    }
  }

  /** The zero AddrPort (and any other invalid address) maps to the zero WASI address. */
  lemma ZeroToZero(port: Uint16)
    ensures TinygoToWasiAddr(AddrPort(Invalid, port)) == ZeroSocketAddress
  {
  }

  /** The descriptor table and the counter of the backend. */
  datatype Table = Table(fds: map<int, SockId>, nextFd: int)

  /** The table's invariant: every descriptor in it was handed out by the counter. */
  predicate TableValid(t: Table) {
    t.nextFd >= 0 && forall fd :: fd in t.fds ==> 0 <= fd < t.nextFd
  }

  /**
   * GetHostByName's walk over the resolution stream: the first IPv4 address,
   * skipping IPv6 ones; an error or the end of the stream stops it.
   */
  function FirstIPv4(stream: seq<NextAddress>): Result<Bytes4, NetError> {
    if stream == [] then Err(NoAddressesFound)
    else match stream[0]
      case NextErr(code) => Err(ResolveNextFailed(code))
      case NextNone => Err(NoAddressesFound)
      case NextAddr(IPv4Address(a)) => Ok(a)
      case NextAddr(IPv6Address(_)) => FirstIPv4(stream[1..])
  }

  /** Only IPv6 addresses come before position i. */
  predicate SkipsTo(stream: seq<NextAddress>, i: int)
    requires 0 <= i <= |stream|
  {
    forall j :: 0 <= j < i ==> stream[j].NextAddr? && stream[j].ip.IPv6Address?
  }

  /** FirstIPv4 finds a exactly when a is the first IPv4 address and nothing but IPv6 addresses precede it. */
  lemma {:induction false} FirstIPv4Found(stream: seq<NextAddress>, a: Bytes4)
    ensures FirstIPv4(stream) == Ok(a) <==>
            exists i :: 0 <= i < |stream| && stream[i] == NextAddr(IPv4Address(a)) && SkipsTo(stream, i)
  {
    if stream != [] {
      FirstIPv4Found(stream[1..], a);
      var s := stream[1..];
      if stream[0].NextAddr? && stream[0].ip.IPv6Address? {
        if FirstIPv4(s) == Ok(a) {
          var i :| 0 <= i < |s| && s[i] == NextAddr(IPv4Address(a)) && SkipsTo(s, i);
          assert stream[i + 1] == s[i];
          assert SkipsTo(stream, i + 1);
        }
        if exists i :: 0 <= i < |stream| && stream[i] == NextAddr(IPv4Address(a)) && SkipsTo(stream, i) {
          var i :| 0 <= i < |stream| && stream[i] == NextAddr(IPv4Address(a)) && SkipsTo(stream, i);
          assert i > 0;
          assert s[i - 1] == stream[i];
          assert SkipsTo(s, i - 1);
        }
      } else {
        if exists i :: 0 <= i < |stream| && stream[i] == NextAddr(IPv4Address(a)) && SkipsTo(stream, i) {
          var i :| 0 <= i < |stream| && stream[i] == NextAddr(IPv4Address(a)) && SkipsTo(stream, i);
          assert i == 0;
        }
      }
    }
  }

  /** The stream fails with "no addresses found" when it ends (or says none) before any IPv4 address or error. */
  lemma {:induction false} FirstIPv4Exhausted(stream: seq<NextAddress>)
    requires SkipsTo(stream, |stream|)
    ensures FirstIPv4(stream) == Err(NoAddressesFound)
  {
    if stream != [] {
      assert SkipsTo(stream[1..], |stream| - 1);
      FirstIPv4Exhausted(stream[1..]);
    }
  }

  /** GetHostByName as the host resolves name. */
  function Resolve(host: Host, name: string): (Addr, Option<NetError>) {
    match host.resolve(name)
    case Err(code) => (Invalid, Some(ResolveFailed(code)))
    case Ok(stream) =>
      match FirstIPv4(stream)
      case Ok(a) => (V4(a), None)
      case Err(e) => (Invalid, Some(e))
  }

  /** The address family Socket asks the host for: IPv6 only for AF_INET6. */
  function Family(domain: int): AddressFamily {
    if domain == AF_INET6 then IPv6Family else IPv4Family
  }

  /**
   * One netdever call on the backend: its reply and the table after it. Calls
   * on a descriptor that is not in the table fail with "invalid socket fd"
   * (and -1 as integer result) and leave the table alone.
   */
  function Step(t: Table, host: Host, c: Call): (Reply, Table) {
    match c
    case GetHostByName(name) =>
      var (a, err) := Resolve(host, name);
      (AddrReply(a, err), t)
    case InterfaceAddr => (AddrReply(Invalid, Some(NotImplemented("wasip2 TODO Addr"))), t)
    case Socket(domain, stype, _) =>
      if stype != SOCK_STREAM then (IntReply(-1, Some(UnsupportedSocketType(stype))), t)
      else
        (match host.createTCP(Family(domain))
         case Err(e) => (IntReply(-1, Some(e)), t)
         case Ok(sock) => (IntReply(t.nextFd, None), Table(t.fds[t.nextFd := sock], t.nextFd + 1)))
    case Bind(fd, ip) =>
      if fd !in t.fds then (ErrReply(Some(InvalidSocketFd)), t)
      else (ErrReply(host.bind(t.fds[fd], TinygoToWasiAddr(ip))), t)
    case Connect(fd, h, ip) =>
      if fd !in t.fds then (ErrReply(Some(InvalidSocketFd)), t)
      else (ErrReply(host.connect(t.fds[fd], h, TinygoToWasiAddr(ip))), t)
    case Listen(fd, backlog) =>
      if fd !in t.fds then (ErrReply(Some(InvalidSocketFd)), t)
      else (ErrReply(host.listen(t.fds[fd], backlog)), t)
    case Accept(fd) =>
      if fd !in t.fds then (AcceptReply(-1, ZeroAddrPort, Some(InvalidSocketFd)), t)
      else
        (match host.accept(t.fds[fd])
         case Err(e) => (AcceptReply(-1, ZeroAddrPort, Some(AcceptFailed(e))), t)
         case Ok((sock, raddr)) =>
           (AcceptReply(t.nextFd, WasiAddrToTinygo(raddr), None), Table(t.fds[t.nextFd := sock], t.nextFd + 1)))
    case Send(fd, buf, flags, deadline) =>
      if fd !in t.fds then (IntReply(-1, Some(InvalidSocketFd)), t)
      else
        var (n, err) := host.send(t.fds[fd], buf, flags, deadline);
        (IntReply(n, err), t)
    case Recv(fd, size, flags, deadline) =>
      if fd !in t.fds then (IntReply(-1, Some(InvalidSocketFd)), t)
      else
        var (n, err) := host.recv(t.fds[fd], size, flags, deadline);
        (IntReply(n, err), t)
    case Close(fd) =>
      if fd !in t.fds then (ErrReply(Some(InvalidSocketFd)), t)
      else (ErrReply(host.close(t.fds[fd])), Table(t.fds - {fd}, t.nextFd))
    case SetSockOpt(_, _, _, _) => (ErrReply(Some(NotImplemented("wasip2 TODO set socket option"))), t)
  }

  /** The calls that name a descriptor of the table. */
  predicate OnFd(c: Call) {
    c.Bind? || c.Connect? || c.Listen? || c.Accept? || c.Send? || c.Recv? || c.Close?
  }

  /** Every step keeps the table valid, never lowers the counter and only adds the counter's descriptor. */
  lemma StepValid(t: Table, host: Host, c: Call)
    requires TableValid(t)
    ensures var tNext := Step(t, host, c).1;
      TableValid(tNext) &&
      (tNext.nextFd == t.nextFd || tNext.nextFd == t.nextFd + 1) &&
      (forall fd :: fd in tNext.fds && fd !in t.fds ==> fd == t.nextFd) &&
      (forall fd :: fd in t.fds && fd in tNext.fds ==> tNext.fds[fd] == t.fds[fd])
  {
  }

  /** A call on a descriptor that is not in the table fails with "invalid socket fd", -1, and changes nothing. */
  lemma UnknownFd(t: Table, host: Host, c: Call)
    requires OnFd(c) && c.fd !in t.fds
    ensures Step(t, host, c).1 == t
    ensures Step(t, host, c).0.err == Some(InvalidSocketFd)
    ensures ReturnsInt(c) ==> Step(t, host, c).0.n == -1
  {
  }

  /** Only stream sockets exist: any other type fails with -1 and consumes no descriptor. */
  lemma NoDatagramSockets(t: Table, host: Host, domain: int, stype: int, protocol: int)
    requires stype != SOCK_STREAM
    ensures Step(t, host, Socket(domain, stype, protocol)) ==
            (IntReply(-1, Some(UnsupportedSocketType(stype))), t)
  {
  }

  /** Socket and Accept register a descriptor exactly when they succeed, and it is the counter's value. */
  lemma AllocatesOnSuccess(t: Table, host: Host, c: Call)
    requires c.Socket? || c.Accept?
    ensures var (r, tNext) := Step(t, host, c);
      if r.err.None? then r.n == t.nextFd && tNext.nextFd == t.nextFd + 1 && tNext.fds.Keys == t.fds.Keys + {t.nextFd}
      else r.n == -1 && tNext == t
  {
  }

  /** Close removes exactly its descriptor, and a second Close of it fails. */
  lemma CloseTwice(t: Table, host: Host, fd: int)
    requires fd in t.fds
    ensures var tNext := Step(t, host, Close(fd)).1;
      tNext.fds.Keys == t.fds.Keys - {fd} && tNext.nextFd == t.nextFd &&
      (forall k :: k in tNext.fds ==> tNext.fds[k] == t.fds[k]) &&
      Step(tNext, host, Close(fd)).0.err == Some(InvalidSocketFd)
  {
  }

  /** The interface address and socket options are not implemented. */
  lemma Unimplemented(t: Table, host: Host, fd: int, level: int, opt: int, v: OptValue)
    ensures Step(t, host, InterfaceAddr).0.err.Some? && Step(t, host, InterfaceAddr).1 == t
    ensures Step(t, host, SetSockOpt(fd, level, opt, v)).0.err.Some?
    ensures Step(t, host, SetSockOpt(fd, level, opt, v)).1 == t
  {
  }

  /** The replies and final table of a run of calls. */
  function Run(t: Table, host: Host, cs: seq<Call>): (seq<Reply>, Table)
    decreases |cs|
  {
    if cs == [] then ([], t)
    else
      var (r, t1) := Step(t, host, cs[0]);
      var (rs, t2) := Run(t1, host, cs[1..]);
      ([r] + rs, t2)
  }

  /** The descriptors a run hands out, in order. */
  function Handed(t: Table, host: Host, cs: seq<Call>): seq<int>
    decreases |cs|
  {
    if cs == [] then []
    else
      var (r, t1) := Step(t, host, cs[0]);
      var here := if (cs[0].Socket? || cs[0].Accept?) && r.err.None? then [r.n] else [];
      here + Handed(t1, host, cs[1..])
  }

  predicate StrictlyIncreasing(s: seq<int>) {
    forall i, j :: 0 <= i < j < |s| ==> s[i] < s[j]
  }

  predicate InRange(s: seq<int>, lo: int, hi: int) {
    forall i :: 0 <= i < |s| ==> lo <= s[i] < hi
  }

  /** What one step does to the counter: a descriptor handed out is the old counter value. */
  lemma StepCounter(t: Table, host: Host, c: Call)
    requires TableValid(t)
    ensures var (r, tNext) := Step(t, host, c);
      TableValid(tNext) &&
      if (c.Socket? || c.Accept?) && r.err.None? then r.n == t.nextFd && tNext.nextFd == t.nextFd + 1
      else tNext.nextFd == t.nextFd
  {
  }

  /**
   * Descriptors are handed out as 0, 1, 2, ... in order: along any run they are
   * strictly increasing and lie between the counter's values before and after the run.
   */
  lemma {:induction false} HandedIncreasing(t: Table, host: Host, cs: seq<Call>)
    requires TableValid(t)
    ensures InRange(Handed(t, host, cs), t.nextFd, Run(t, host, cs).1.nextFd)
    ensures StrictlyIncreasing(Handed(t, host, cs))
    decreases |cs|
  {
    if cs != [] {
      var (r, t1) := Step(t, host, cs[0]);
      StepCounter(t, host, cs[0]);
      HandedIncreasing(t1, host, cs[1..]);
      RunCounter(t1, host, cs[1..]);
    }
  }

  /** No descriptor a run hands out is one the table already held: descriptors are never reused. */
  lemma NeverReused(t: Table, host: Host, cs: seq<Call>)
    requires TableValid(t)
    ensures forall fd :: fd in Handed(t, host, cs) ==> fd !in t.fds
  {
    HandedIncreasing(t, host, cs);
  }

  /** The counter never goes down along a run. */
  lemma {:induction false} RunCounter(t: Table, host: Host, cs: seq<Call>)
    requires TableValid(t)
    ensures Run(t, host, cs).1.nextFd >= t.nextFd
    decreases |cs|
  {
    if cs != [] {
      var (r, t1) := Step(t, host, cs[0]);
      StepValid(t, host, cs[0]);
      RunCounter(t1, host, cs[1..]);
    }
  }

  /** The wasip2Netdev backend. */
  class Wasip2Netdev {
    var fds: map<int, SockId>
    var nextFd: int
    /** The instance network the host hands out, standing for the host itself. */
    const net: Host

    function State(): Table
      reads this
    {
      Table(fds, nextFd)
    }

    ghost predicate Valid()
      reads this
    {
      TableValid(State())
    }

    /** init: an empty table and a counter at 0. */
    constructor(host: Host)
      ensures fds == map[] && nextFd == 0 && net == host
      ensures Valid()
    {
      fds := map[];
      nextFd := 0;
      net := host;
    }

    method GetNextFD() returns (fd: int)
      modifies this
      ensures fd == old(nextFd) && nextFd == old(nextFd) + 1 && fds == old(fds)
    {
      nextFd := nextFd + 1;
      fd := nextFd - 1;
    }

    method GetHostByName(name: string) returns (a: Addr, err: Option<NetError>)
      ensures (AddrReply(a, err), State()) == Step(State(), net, Call.GetHostByName(name))
    {
      var res := net.resolve(name);
      if res.Err? {
        return Invalid, Some(ResolveFailed(res.error));
      }
      var stream := res.value;
      var i := 0;
      while i < |stream|
        invariant 0 <= i <= |stream|
        invariant FirstIPv4(stream[i..]) == FirstIPv4(stream)
      {
        assert stream[i..][1..] == stream[i + 1..];
        match stream[i]
        case NextErr(code) =>
          return Invalid, Some(ResolveNextFailed(code));
        case NextNone =>
          return Invalid, Some(NoAddressesFound);
        case NextAddr(ip) =>
          if ip.IPv4Address? {
            return V4(ip.a4), None;
          }
        i := i + 1;
      }
      return Invalid, Some(NoAddressesFound);
    }

    method Addr() returns (a: Netip.Addr, err: Option<NetError>)
      ensures (AddrReply(a, err), State()) == Step(State(), net, InterfaceAddr)
    {
      return Invalid, Some(NotImplemented("wasip2 TODO Addr"));
    }

    method Socket(domain: int, stype: int, protocol: int) returns (fd: int, err: Option<NetError>)
      modifies this
      ensures (IntReply(fd, err), State()) == Step(old(State()), net, Call.Socket(domain, stype, protocol))
    {
      var af := IPv4Family;
      if domain == AF_INET6 {
        af := IPv6Family;
      }
      if stype != SOCK_STREAM {
        return -1, Some(UnsupportedSocketType(stype));
      }
      var sock := net.createTCP(af);
      if sock.Err? {
        return -1, Some(sock.error);
      }
      fd := GetNextFD();
      fds := fds[fd := sock.value];
      return fd, None;
    }

    method Bind(fd: int, ip: AddrPort) returns (err: Option<NetError>)
      ensures (ErrReply(err), State()) == Step(State(), net, Call.Bind(fd, ip))
    {
      if fd !in fds {
        return Some(InvalidSocketFd);
      }
      return net.bind(fds[fd], TinygoToWasiAddr(ip));
    }

    method Connect(fd: int, host: string, ip: AddrPort) returns (err: Option<NetError>)
      ensures (ErrReply(err), State()) == Step(State(), net, Call.Connect(fd, host, ip))
    {
      if fd !in fds {
        return Some(InvalidSocketFd);
      }
      return net.connect(fds[fd], host, TinygoToWasiAddr(ip));
    }

    method Listen(fd: int, backlog: int) returns (err: Option<NetError>)
      ensures (ErrReply(err), State()) == Step(State(), net, Call.Listen(fd, backlog))
    {
      if fd !in fds {
        return Some(InvalidSocketFd);
      }
      return net.listen(fds[fd], backlog);
    }

    method Accept(fd: int) returns (newFd: int, peer: AddrPort, err: Option<NetError>)
      modifies this
      ensures (AcceptReply(newFd, peer, err), State()) == Step(old(State()), net, Call.Accept(fd))
    {
      if fd !in fds {
        return -1, ZeroAddrPort, Some(InvalidSocketFd);
      }
      var res := net.accept(fds[fd]);
      if res.Err? {
        return -1, ZeroAddrPort, Some(AcceptFailed(res.error));
      }
      var (sock, raddr) := res.value;
      newFd := GetNextFD();
      fds := fds[newFd := sock];
      return newFd, WasiAddrToTinygo(raddr), None;
    }

    method Send(fd: int, buf: seq<Byte>, flags: int, deadline: Time) returns (n: int, err: Option<NetError>)
      ensures (IntReply(n, err), State()) == Step(State(), net, Call.Send(fd, buf, flags, deadline))
    {
      if fd !in fds {
        return -1, Some(InvalidSocketFd);
      }
      n, err := net.send(fds[fd], buf, flags, deadline).0, net.send(fds[fd], buf, flags, deadline).1;
    }

    method Recv(fd: int, size: nat, flags: int, deadline: Time) returns (n: int, err: Option<NetError>)
      ensures (IntReply(n, err), State()) == Step(State(), net, Call.Recv(fd, size, flags, deadline))
    {
      if fd !in fds {
        return -1, Some(InvalidSocketFd);
      }
      n, err := net.recv(fds[fd], size, flags, deadline).0, net.recv(fds[fd], size, flags, deadline).1;
    }

    method Close(fd: int) returns (err: Option<NetError>)
      modifies this
      ensures (ErrReply(err), State()) == Step(old(State()), net, Call.Close(fd))
    {
      if fd !in fds {
        return Some(InvalidSocketFd);
      }
      var sock := fds[fd];
      fds := fds - {fd};
      return net.close(sock);
    }

    method SetSockOpt(fd: int, level: int, opt: int, value: OptValue) returns (err: Option<NetError>)
      ensures (ErrReply(err), State()) == Step(State(), net, Call.SetSockOpt(fd, level, opt, value))
    {
      return Some(NotImplemented("wasip2 TODO set socket option"));
    }
  }
}

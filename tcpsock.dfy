/**
 * TCP end points: TCPAddr, ResolveTCPAddr, the TCPConn connection object,
 * DialTCP, and the listener that listenTCP creates. A *TCPAddr is an
 * Option<TCPAddr>, None standing for nil.
 */
module TcpSock {
  import opened Wrappers
  import opened GoStrings
  import opened Netip
  import opened Netdever
  import opened Netdev
  import opened Endpoint
  import Wasip2

  /** TCPAddr: the address of a TCP end point. */
  datatype TCPAddr = TCPAddr(ip: IP, port: int, zone: string)

  /** &TCPAddr{}. */
  const EmptyTCPAddr := TCPAddr(NilIP, 0, "")

  /**
   * TCPAddr.AddrPort: the zero value for nil; otherwise the port cut to 16
   * bits, and an IP of 4 or 16 bytes with the zone kept for IPv6, so that an
   * address already in that form is given back by AsSlice.
   */
  function AddrPortOf(a: Option<TCPAddr>): (r: AddrPort)
    ensures a.None? ==> r == ZeroAddrPort
    ensures a.Some? ==> r.port == Truncate16(a.value.port)
    ensures a.Some? && 0 <= a.value.port < 0x1_0000 &&
            ((a.value.ip.Len() == 4 && a.value.zone == "") || a.value.ip.Len() == 16) ==>
              TCPAddr(r.addr.AsSlice(), r.port, ZoneOf(r.addr)) == a.value
  {
    if a.None? then ZeroAddrPort else ToAddrPort(a.value.ip, a.value.port, a.value.zone)
  }

  /** TCPAddr.Network is always "tcp". */
  function Network(a: Option<TCPAddr>): (r: string)
    ensures r == "tcp"
  {
    "tcp"
  }

  /**
   * TCPAddr.String: "<nil>" for nil; otherwise host and port joined so that
   * SplitHostPort gives them back when the zone has no brackets.
   */
  function String(a: Option<TCPAddr>): (r: string)
    ensures a.None? ==> r == "<nil>"
    ensures a.Some? && NoBrackets(a.value.zone) ==>
      SplitHostPort(r) == Ok((HostText(a.value.ip, a.value.zone), Itoa(a.value.port))) &&
      Atoi(Itoa(a.value.port)) == Some(a.value.port)
  {
    if a.None? then "<nil>" else HostPortString(a.value.ip, a.value.port, a.value.zone)
  }

  /** TCPAddr.isWildcard: nil, a nil IP, or an unspecified IP. */
  predicate IsWildcard(a: Option<TCPAddr>) {
    a.None? || Wildcard(a.value.ip)
  }

  lemma WildcardCases(a: Option<TCPAddr>)
    ensures IsWildcard(a) <==> a.None? || a.value.ip.NilIP? || IsUnspecified(a.value.ip)
    ensures IsWildcard(None) && IsWildcard(Some(EmptyTCPAddr))
  {
  }

  /** TCPAddr.opAddr: nil stays nil, anything else is itself. */
  function OpAddr(a: Option<TCPAddr>): (r: Option<TCPAddr>)
    ensures r.None? <==> a.None?
    ensures a.Some? ==> r == a
  {
    a
  }

  predicate IsTCPNetwork(network: string) {
    network == "tcp" || network == "tcp4"
  }

  /** The one address ResolveTCPAddr rewrites. */
  function RewriteHttp(address: string): string {
    if address == ":http" then ":80" else address
  }

  /**
   * ResolveTCPAddr, with the active backend's GetHostByName as `lookup`. Only
   * "tcp" and "tcp4" are accepted, ":http" becomes ":80", the port is any
   * integer Atoi accepts, an empty host gives a nil IP without a lookup, and
   * the looked-up address is stored as a byte slice.
   */
  function ResolveTCPAddr(network: string, address: string, lookup: Resolver): (r: Result<TCPAddr, NetError>)
    ensures !IsTCPNetwork(network) ==> r == Err(NetworkNotSupported(network))
    ensures r.Ok? ==> r.value.zone == "" && SplitHostPort(RewriteHttp(address)).Ok? &&
                      Atoi(SplitHostPort(RewriteHttp(address)).value.1) == Some(r.value.port)
  {
    if !IsTCPNetwork(network) then Err(NetworkNotSupported(network))
    else
      var addr := RewriteHttp(address);
      match SplitHostPort(addr)
      case Err(e) => Err(AddrError(e, addr))
      case Ok(hs) =>
        var host, sport := hs.0, hs.1;
        match Atoi(sport)
        case None => Err(PortSyntax(sport))
        case Some(port) =>
          if host == "" then Ok(TCPAddr(NilIP, port, ""))
          else
            var ip, err := lookup(host).0, lookup(host).1;
            if err.Some? then Err(LookupFailed(host, err.value))
            else Ok(TCPAddr(ip.AsSlice(), port, ""))
  }

  /** A port written in decimal is never the service name "http". */
  lemma ItoaIsNotAService(port: int)
    ensures ":" + Itoa(port) != ":http"
  {
    var d: nat := if port < 0 then -port else port;
    DigitsValue(d);
    assert (":" + Itoa(port))[1] == Itoa(port)[0] != 'h';
    assert ":http"[1] == 'h';
  }

  /**
   * ResolveTCPAddr on a host and a numeric port: the port comes back unchanged
   * whatever its range, an empty host needs no lookup, and otherwise the
   * lookup's failure or address is what is returned.
   */
  lemma ResolveHostPort(network: string, host: string, port: int, lookup: Resolver)
    requires IsTCPNetwork(network) && NoBrackets(host)
    ensures ResolveTCPAddr(network, JoinHostPort(host, Itoa(port)), lookup) ==
      if host == "" then Ok(TCPAddr(NilIP, port, ""))
      else if lookup(host).1.Some? then Err(LookupFailed(host, lookup(host).1.value))
      else Ok(TCPAddr(lookup(host).0.AsSlice(), port, ""))
  {
    ItoaHasNoBracketOrColon(port);
    SplitJoin(host, Itoa(port));
    AtoiItoa(port);
    JoinIsNotHttp(host, port);
    ResolveParts(network, JoinHostPort(host, Itoa(port)), lookup, host, Itoa(port), port);
  }

  /** A host joined with a decimal port is never the address ":http". */
  lemma JoinIsNotHttp(host: string, port: int)
    ensures JoinHostPort(host, Itoa(port)) != ":http"
  {
    if host == "" {
      ItoaIsNotAService(port);
    } else {
      assert JoinHostPort(host, Itoa(port))[0] == host[0] || JoinHostPort(host, Itoa(port))[0] == '[';
    }
  }

  /** An address that splits into a host and a numeric port resolves to that port. */
  lemma ResolveParts(network: string, address: string, lookup: Resolver, host: string, sport: string, port: int)
    requires IsTCPNetwork(network) && address != ":http"
    requires SplitHostPort(address) == Ok((host, sport)) && Atoi(sport) == Some(port)
    ensures ResolveTCPAddr(network, address, lookup) ==
      if host == "" then Ok(TCPAddr(NilIP, port, ""))
      else if lookup(host).1.Some? then Err(LookupFailed(host, lookup(host).1.value))
      else Ok(TCPAddr(lookup(host).0.AsSlice(), port, ""))
  {
  }

  /** The address ":http" is read as ":80". */
  lemma ResolveHttp(network: string, lookup: Resolver)
    requires IsTCPNetwork(network)
    ensures ResolveTCPAddr(network, ":http", lookup) == ResolveTCPAddr(network, ":80", lookup)
    ensures ResolveTCPAddr(network, ":http", lookup) == Ok(TCPAddr(NilIP, 80, ""))
  {
    var eighty := Itoa(80);
    assert eighty == "80";
    assert JoinHostPort("", eighty) == ":80";
    ResolveHostPort(network, "", 80, lookup);
  }

  /** Only the exact address ":http" is rewritten: a service name after a host is a bad port. */
  lemma ResolveServiceName(network: string, host: string, lookup: Resolver)
    requires IsTCPNetwork(network) && host != "" && NoBrackets(host) && ':' !in host
    ensures ResolveTCPAddr(network, host + ":http", lookup) == Err(PortSyntax("http"))
  {
    ServiceAddress(host);
    ServiceIsNotANumber();
    ResolveBadPort(network, host + ":http", lookup);
  }

  /** The service name "http" is not a decimal port. */
  lemma ServiceIsNotANumber()
    ensures Atoi("http").None?
  {
    var service := "http";
    assert !IsDigit(service[0]) && service[0] != '-' && service[0] != '+';
  }

  /** A plain host followed by ":http" splits into that host and "http". */
  lemma ServiceAddress(host: string)
    requires host != "" && NoBrackets(host) && ':' !in host
    ensures SplitHostPort(host + ":http") == Ok((host, "http")) && host + ":http" != ":http"
  {
    SplitJoin(host, "http");
    JoinHttp(host);
    assert |host + ":http"| > |":http"|;
  }

  /** JoinHostPort of a plain host and "http" is the host followed by ":http". */
  lemma JoinHttp(host: string)
    requires ':' !in host
    ensures JoinHostPort(host, "http") == host + ":http"
  {
    assert host + ":" + "http" == host + ":http";
  }

  /** A port Atoi rejects is a syntax error naming that port. */
  lemma ResolveBadPort(network: string, address: string, lookup: Resolver)
    requires IsTCPNetwork(network) && address != ":http"
    requires SplitHostPort(address).Ok? && Atoi(SplitHostPort(address).value.1).None?
    ensures ResolveTCPAddr(network, address, lookup) == Err(PortSyntax(SplitHostPort(address).value.1))
  {
  }

  /** An address SplitHostPort rejects is returned with SplitHostPort's error, before any lookup. */
  lemma ResolveSplitError(network: string, address: string, lookup: Resolver)
    requires IsTCPNetwork(network) && SplitHostPort(address).Err?
    ensures ResolveTCPAddr(network, address, lookup) == Err(AddrError(SplitHostPort(address).error, address))
  {
    HttpAddressSplits();
    assert address != ":http";
  }

  /** The address ":http" splits into an empty host and "http". */
  lemma HttpAddressSplits()
    ensures SplitHostPort(":http") == Ok(("", "http"))
  {
    var service := "http";
    SplitJoin("", service);
    assert JoinHostPort("", service) == ":http";
  }

  /** An address with an empty host resolves the same under any lookup: none is made. */
  lemma ResolveWithoutLookup(network: string, address: string, l1: Resolver, l2: Resolver)
    requires SplitHostPort(RewriteHttp(address)).Ok? ==> SplitHostPort(RewriteHttp(address)).value.0 == ""
    ensures ResolveTCPAddr(network, address, l1) == ResolveTCPAddr(network, address, l2)
  {
  }

  /** The parts of a TCPConn fixed when it is created. */
  datatype ConnInfo = ConnInfo(fd: int, net: string, laddr: Option<TCPAddr>, raddr: Option<TCPAddr>)

  /** TCPConn: a connection on a backend descriptor, with its two deadlines. */
  class TCPConn {
    const fd: int
    const net: string
    const laddr: Option<TCPAddr>
    const raddr: Option<TCPAddr>
    var readDeadline: Time
    var writeDeadline: Time

    function Info(): ConnInfo {
      ConnInfo(fd, net, laddr, raddr)
    }

    constructor(fd: int, net: string, laddr: Option<TCPAddr>, raddr: Option<TCPAddr>)
      ensures Info() == ConnInfo(fd, net, laddr, raddr)
      ensures readDeadline == NoDeadline && writeDeadline == NoDeadline
    {
      this.fd := fd;
      this.net := net;
      this.laddr := laddr;
      this.raddr := raddr;
      readDeadline := NoDeadline;
      writeDeadline := NoDeadline;
    }

    /**
     * Read: Recv on the conn's descriptor with the read deadline; a negative
     * count becomes 0 and every error except io.EOF is wrapped as a "read" OpError.
     */
    method Read(n: Net, size: nat) returns (count: nat, err: Option<NetError>)
      requires n.Valid()
      modifies n, n.Backend()
      ensures var r := old(n.Answer(Recv(fd, size, 0, readDeadline)));
        n.Called(Recv(fd, size, 0, readDeadline), r) &&
        count == ClampCount(r.n) && err == ReadError(net, r.err)
    {
      var r := n.Do(Recv(fd, size, 0, readDeadline));
      count := ClampCount(r.n);
      err := ReadError(net, r.err);
    }

    /**
     * Write: Send of b on the conn's descriptor with the write deadline; a
     * negative count becomes 0 and every error is wrapped as a "write" OpError.
     */
    method Write(n: Net, b: seq<Byte>) returns (count: nat, err: Option<NetError>)
      requires n.Valid()
      modifies n, n.Backend()
      ensures var r := old(n.Answer(Send(fd, b, 0, writeDeadline)));
        n.Called(Send(fd, b, 0, writeDeadline), r) &&
        count == ClampCount(r.n) && err == WriteError(net, r.err)
    {
      var r := n.Do(Send(fd, b, 0, writeDeadline));
      count := ClampCount(r.n);
      err := WriteError(net, r.err);
    }

    /** Close: closes the descriptor on the backend. */
    method Close(n: Net) returns (err: Option<NetError>)
      requires n.Valid()
      modifies n, n.Backend()
      ensures var r := old(n.Answer(Call.Close(fd)));
        n.Called(Call.Close(fd), r) && err == r.err
    {
      var r := n.Do(Call.Close(fd));
      err := r.err;
    }

    function LocalAddr(): (a: Option<TCPAddr>)
      ensures a == Info().laddr
    {
      laddr
    }

    function RemoteAddr(): (a: Option<TCPAddr>)
      ensures a == Info().raddr
    {
      raddr
    }

    /** SetDeadline: sets both deadlines and succeeds. */
    method SetDeadline(t: Time) returns (err: Option<NetError>)
      modifies this
      ensures readDeadline == t && writeDeadline == t && err.None?
    {
      readDeadline := t;
      writeDeadline := t;
      err := None;
    }

    /** SetReadDeadline: sets the read deadline only and succeeds. */
    method SetReadDeadline(t: Time) returns (err: Option<NetError>)
      modifies this
      ensures readDeadline == t && writeDeadline == old(writeDeadline) && err.None?
    {
      readDeadline := t;
      err := None;
    }

    /** SetWriteDeadline: sets the write deadline only and succeeds. */
    method SetWriteDeadline(t: Time) returns (err: Option<NetError>)
      modifies this
      ensures writeDeadline == t && readDeadline == old(readDeadline) && err.None?
    {
      writeDeadline := t;
      err := None;
    }

    /** SetKeepAlive: the SO_KEEPALIVE socket option at SOL_SOCKET level. */
    method SetKeepAlive(n: Net, keepalive: bool) returns (err: Option<NetError>)
      requires n.Valid()
      modifies n, n.Backend()
      ensures var c := SetSockOpt(fd, SOL_SOCKET, SO_KEEPALIVE, BoolOpt(keepalive));
        n.Called(c, old(n.Answer(c))) && err == old(n.Answer(c)).err
    {
      var r := n.Do(SetSockOpt(fd, SOL_SOCKET, SO_KEEPALIVE, BoolOpt(keepalive)));
      err := r.err;
    }

    /** CloseWrite is not implemented. */
    function CloseWrite(): (err: Option<NetError>)
      ensures err.Some? && err.value.NotImplemented?
    {
      Some(NotImplemented("CloseWrite"))
    }
  }

  /**
   * conn_test's deadline check, sequentially: after a read deadline is set, a
   * Write still carries the write deadline set before, and a Read carries the
   * new read deadline.
   */
  method DeadlinesIndependent(n: Net, c: TCPConn, tr: Time, tw: Time, b: seq<Byte>)
    returns (sent: nat, got: nat)
    requires n.Valid()
    modifies n, n.Backend(), c
    ensures c.readDeadline == tr && c.writeDeadline == tw
    ensures |n.trace| == |old(n.trace)| + 2
    ensures n.trace[|n.trace| - 2].call == Send(c.fd, b, 0, tw)
    ensures n.trace[|n.trace| - 1].call == Recv(c.fd, |b|, 0, tr)
  {
    var _ := c.SetWriteDeadline(tw);
    var _ := c.SetReadDeadline(tr);
    var err;
    sent, err := c.Write(n, b);
    got, err := c.Read(n, |b|);
  }

  /**
   * The calls DialTCP makes and what it returns: a bad network or an
   * unspecified remote IP fails before any call; then Socket, and on success
   * Connect with the remote AddrPort; a failed Connect closes the descriptor.
   */
  predicate DialTCPSteps(network: string, laddr: Option<TCPAddr>, raddr: Option<TCPAddr>,
                         steps: seq<Event>, out: Result<ConnInfo, NetError>)
  {
    var ra := raddr.GetOr(EmptyTCPAddr);
    if !IsTCPNetwork(network) then steps == [] && out == Err(NetworkNotSupported(network))
    else if IsUnspecified(ra.ip) then steps == [] && out == Err(LocalhostUnavailable)
    else
      |steps| >= 1 && steps[0].call == Socket(AF_INET, SOCK_STREAM, IPPROTO_TCP) &&
      var s := steps[0].reply;
      if s.err.Some? then |steps| == 1 && out == Err(s.err.value)
      else
        |steps| >= 2 && steps[1].call == Connect(s.n, "", AddrPortOf(Some(ra))) &&
        var cr := steps[1].reply;
        if cr.err.Some? then |steps| == 3 && steps[2].call == Call.Close(s.n) && out == Err(cr.err.value)
        else |steps| == 2 && out == Ok(ConnInfo(s.n, network, laddr, Some(ra)))
  }

  /** DialTCP leaves no descriptor behind when it fails, and exactly the conn's when it succeeds. */
  lemma DialTCPNoLeak(network: string, laddr: Option<TCPAddr>, raddr: Option<TCPAddr>,
                      steps: seq<Event>, out: Result<ConnInfo, NetError>)
    requires DialTCPSteps(network, laddr, raddr, steps, out)
    ensures out.Err? ==> Leaked(steps) == {}
    ensures out.Ok? ==> Leaked(steps) == {out.value.fd}
  {
    if |steps| >= 1 {
      assert steps[..1][..0] == [];
      assert Leaked(steps[..1]) == Opened(steps[0]);
    }
    if |steps| >= 2 {
      assert steps[..2][..1] == steps[..1];
      assert Leaked(steps[..2]) == Leaked(steps[..1]);
    }
    if |steps| == 3 {
      assert steps[..3] == steps && steps[..2] == steps[..|steps| - 1];
    } else if |steps| == 2 {
      assert steps[..2] == steps;
    } else if |steps| == 1 {
      assert steps[..1] == steps;
    }
  }

  /** On the nop backend DialTCP stops at Socket with ErrNetdevNotSet. */
  lemma DialTCPOnNop(network: string, laddr: Option<TCPAddr>, raddr: Option<TCPAddr>,
                     steps: seq<Event>, out: Result<ConnInfo, NetError>, t0: Wasip2.Table, t1: Wasip2.Table)
    requires DialTCPSteps(network, laddr, raddr, steps, out) && Replayed(NopDev, t0, steps, t1)
    requires IsTCPNetwork(network) && !IsUnspecified(raddr.GetOr(EmptyTCPAddr).ip)
    ensures out == Err(NetdevNotSet) && |steps| == 1
  {
    assert steps[0].reply == NopNetdev(steps[0].call);
  }

  /**
   * DialTCP. A nil raddr is taken as &TCPAddr{}, whose nil IP is not
   * unspecified, so it goes on to open a socket.
   */
  method DialTCP(n: Net, network: string, laddr: Option<TCPAddr>, raddr: Option<TCPAddr>)
    returns (c: TCPConn?, err: Option<NetError>, ghost steps: seq<Event>)
    requires n.Valid()
    modifies n, n.Backend()
    ensures n.Ran(steps)
    ensures (c == null) == err.Some?
    ensures c != null ==> fresh(c) && c.readDeadline == NoDeadline && c.writeDeadline == NoDeadline
    ensures DialTCPSteps(network, laddr, raddr, steps, if c == null then Err(err.value) else Ok(c.Info()))
  {
    steps := [];
    ReplayedEmpty(n.netdev, n.Table());
    if !IsTCPNetwork(network) {
      return null, Some(NetworkNotSupported(network)), steps;
    }
    var ra := if raddr.None? then EmptyTCPAddr else raddr.value;
    if IsUnspecified(ra.ip) {
      return null, Some(LocalhostUnavailable), steps;
    }
    ghost var t0 := n.Table();
    var s := n.Do(Socket(AF_INET, SOCK_STREAM, IPPROTO_TCP));
    steps := [Event(Socket(AF_INET, SOCK_STREAM, IPPROTO_TCP), s)];
    if s.err.Some? {
      return null, s.err, steps;
    }
    var fd := s.n;
    var cr := n.DoNext(Connect(fd, "", AddrPortOf(Some(ra))), t0, steps);
    steps := steps + [Event(Connect(fd, "", AddrPortOf(Some(ra))), cr)];
    if cr.err.Some? {
      var cl := n.DoNext(Call.Close(fd), t0, steps);
      steps := steps + [Event(Call.Close(fd), cl)];
      return null, cr.err, steps;
    }
    c := new TCPConn(fd, network, laddr, Some(ra));
    err := None;
  }

  /** listener: a listening descriptor and the address it was bound to. */
  datatype Listener = Listener(fd: int, laddr: TCPAddr) {
    /** Addr: the address the listener was created with. */
    function Addr(): (a: TCPAddr)
      ensures a == laddr
    {
      laddr
    }
  }

  /**
   * listener.Accept: Accept on the listening descriptor; the new conn is a
   * "tcp" conn with the listener's address and no remote address (the peer
   * the backend reports is dropped).
   */
  method Accept(n: Net, l: Listener) returns (c: TCPConn?, err: Option<NetError>)
    requires n.Valid()
    modifies n, n.Backend()
    ensures var r := old(n.Answer(Call.Accept(l.fd)));
      n.Called(Call.Accept(l.fd), r) &&
      (r.err.Some? ==> c == null && err == r.err) &&
      (r.err.None? ==>
         c != null && fresh(c) && err.None? &&
         c.Info() == ConnInfo(r.n, "tcp", Some(l.laddr), None) &&
         c.readDeadline == NoDeadline && c.writeDeadline == NoDeadline)
  {
    var r := n.Do(Call.Accept(l.fd));
    if r.err.Some? {
      return null, r.err;
    }
    c := new TCPConn(r.n, "tcp", Some(l.laddr), None);
    err := None;
  }

  /** listener.Close: closes the listening descriptor. */
  method CloseListener(n: Net, l: Listener) returns (err: Option<NetError>)
    requires n.Valid()
    modifies n, n.Backend()
    ensures var r := old(n.Answer(Call.Close(l.fd)));
      n.Called(Call.Close(l.fd), r) && err == r.err
  {
    var r := n.Do(Call.Close(l.fd));
    err := r.err;
  }

  /**
   * The calls listenTCP makes: Socket, Bind to laddr, Listen with backlog 5,
   * stopping at the first error without closing the descriptor.
   */
  predicate ListenTCPSteps(laddr: TCPAddr, steps: seq<Event>, out: Result<Listener, NetError>) {
    |steps| >= 1 && steps[0].call == Socket(AF_INET, SOCK_STREAM, IPPROTO_TCP) &&
    var s := steps[0].reply;
    if s.err.Some? then |steps| == 1 && out == Err(s.err.value)
    else
      |steps| >= 2 && steps[1].call == Call.Bind(s.n, AddrPortOf(Some(laddr))) &&
      var b := steps[1].reply;
      if b.err.Some? then |steps| == 2 && out == Err(b.err.value)
      else
        |steps| == 3 && steps[2].call == Call.Listen(s.n, 5) &&
        var li := steps[2].reply;
        if li.err.Some? then out == Err(li.err.value) else out == Ok(Listener(s.n, laddr))
  }

  /**
   * listenTCP keeps the descriptor Socket gave it whatever happens next: on
   * success it is the listener's, and on a Bind or Listen failure it is leaked.
   */
  lemma ListenTCPLeak(laddr: TCPAddr, steps: seq<Event>, out: Result<Listener, NetError>)
    requires ListenTCPSteps(laddr, steps, out)
    ensures steps[0].reply.err.Some? ==> Leaked(steps) == {}
    ensures steps[0].reply.err.None? ==> Leaked(steps) == {steps[0].reply.n}
    ensures out.Ok? ==> out.value.fd == steps[0].reply.n
  {
    assert steps[..1][..0] == [];
    assert Leaked(steps[..1]) == Opened(steps[0]);
    if |steps| >= 2 {
      assert steps[..2][..1] == steps[..1];
      assert Leaked(steps[..2]) == Leaked(steps[..1]);
    }
    if |steps| == 3 {
      assert steps[..3] == steps && steps[..2] == steps[..|steps| - 1];
    } else if |steps| == 2 {
      assert steps[..2] == steps;
    } else {
      assert steps[..1] == steps;
    }
  }

  /** On the wasip2 backend a failed Bind leaves the new socket in the table. */
  lemma ListenTCPLeakOnWasip2(laddr: TCPAddr, steps: seq<Event>, out: Result<Listener, NetError>,
                              w: Wasip2.Wasip2Netdev, t0: Wasip2.Table, t1: Wasip2.Table)
    requires ListenTCPSteps(laddr, steps, out) && Replayed(Wasip2Dev(w), t0, steps, t1)
    requires steps[0].reply.err.None? && out.Err?
    ensures steps[0].reply.n in t1.fds
  {
    var cs := Calls(steps);
    var fd := steps[0].reply.n;
    var (r0, ta) := Wasip2.Step(t0, w.net, cs[0]);
    Wasip2.AllocatesOnSuccess(t0, w.net, cs[0]);
    assert fd in ta.fds;
    var (r1, tb) := Wasip2.Step(ta, w.net, cs[1]);
    assert fd in tb.fds;
    assert Wasip2.Run(t0, w.net, cs).1 == Wasip2.Run(ta, w.net, cs[1..]).1;
    assert cs[1..][0] == cs[1];
    assert Wasip2.Run(ta, w.net, cs[1..]).1 == Wasip2.Run(tb, w.net, cs[2..]).1;
    if |steps| == 3 {
      assert cs[2..][0] == cs[2];
      assert cs[2..][1..] == [];
      var (r2, tc) := Wasip2.Step(tb, w.net, cs[2]);
      assert fd in tc.fds;
      assert Wasip2.Run(tb, w.net, cs[2..]).1 == tc;
    } else {
      assert cs[2..] == [];
    }
  }

  /** listenTCP. */
  method ListenTCP(n: Net, laddr: TCPAddr) returns (res: Result<Listener, NetError>, ghost steps: seq<Event>)
    requires n.Valid()
    modifies n, n.Backend()
    ensures n.Ran(steps)
    ensures ListenTCPSteps(laddr, steps, res)
  {
    ghost var t0 := n.Table();
    var s := n.Do(Socket(AF_INET, SOCK_STREAM, IPPROTO_TCP));
    steps := [Event(Socket(AF_INET, SOCK_STREAM, IPPROTO_TCP), s)];
    if s.err.Some? {
      return Err(s.err.value), steps;
    }
    var fd := s.n;
    var b := n.DoNext(Call.Bind(fd, AddrPortOf(Some(laddr))), t0, steps);
    steps := steps + [Event(Call.Bind(fd, AddrPortOf(Some(laddr))), b)];
    if b.err.Some? {
      return Err(b.err.value), steps;
    }
    var li := n.DoNext(Call.Listen(fd, 5), t0, steps);
    steps := steps + [Event(Call.Listen(fd, 5), li)];
    if li.err.Some? {
      return Err(li.err.value), steps;
    }
    res := Ok(Listener(fd, laddr));
  }
}

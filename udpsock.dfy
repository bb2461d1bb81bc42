/**
 * UDP end points: UDPAddr, ResolveUDPAddr, the ephemeral port counter, the
 * UDPConn connection object and DialUDP. DialUDP writes the chosen ephemeral
 * port into the caller's *UDPAddr, so a UDPAddr is an object here and a
 * *UDPAddr a `UDPAddr?`.
 */
module UdpSock {
  import opened Wrappers
  import opened GoStrings
  import opened Netip
  import opened Netdever
  import opened Netdev
  import opened Endpoint
  import TcpSock
  import Wasip2

  /** UDPAddr: the address of a UDP end point. */
  class UDPAddr {
    var ip: IP
    var port: int
    var zone: string

    constructor(ip: IP, port: int, zone: string)
      ensures this.ip == ip && this.port == port && this.zone == zone
    {
      this.ip := ip;
      this.port := port;
      this.zone := zone;
    }
  }

  /**
   * UDPAddr.AddrPort: the zero value for nil; otherwise the port cut to 16
   * bits, and an IP of 4 or 16 bytes with the zone kept for IPv6, so that an
   * address already in that form is given back by AsSlice.
   */
  function AddrPortOf(a: UDPAddr?): (r: AddrPort)
    reads a
    ensures a == null ==> r == ZeroAddrPort
    ensures a != null ==> r.port == Truncate16(a.port)
    ensures a != null && 0 <= a.port < 0x1_0000 && ((a.ip.Len() == 4 && a.zone == "") || a.ip.Len() == 16) ==>
      r.addr.AsSlice() == a.ip && r.port == a.port && ZoneOf(r.addr) == a.zone
  {
    if a == null then ZeroAddrPort else ToAddrPort(a.ip, a.port, a.zone)
  }

  /** UDPAddr.Network is always "udp". */
  function Network(a: UDPAddr?): (r: string)
    ensures r == "udp"
  {
    "udp"
  }

  /**
   * UDPAddr.String: "<nil>" for nil; otherwise host and port joined so that
   * SplitHostPort gives them back when the zone has no brackets.
   */
  function String(a: UDPAddr?): (r: string)
    reads a
    ensures a == null ==> r == "<nil>"
    ensures a != null && NoBrackets(a.zone) ==>
      SplitHostPort(r) == Ok((HostText(a.ip, a.zone), Itoa(a.port))) && Atoi(Itoa(a.port)) == Some(a.port)
  {
    if a == null then "<nil>" else HostPortString(a.ip, a.port, a.zone)
  }

  /** UDPAddr.isWildcard: nil, a nil IP, or an unspecified IP. */
  predicate IsWildcard(a: UDPAddr?)
    reads a
  {
    a == null || Wildcard(a.ip)
  }

  /** UDPAddr.opAddr: nil stays nil, anything else is itself. */
  function OpAddr(a: UDPAddr?): (r: UDPAddr?)
    ensures r == a
  {
    a
  }

  /** A UDP address and a TCP address with the same fields have the same text, AddrPort and wildcard test. */
  lemma SameAsTCP(a: UDPAddr)
    ensures var t := Some(TcpSock.TCPAddr(a.ip, a.port, a.zone));
      String(a) == TcpSock.String(t) && AddrPortOf(a) == TcpSock.AddrPortOf(t) &&
      (IsWildcard(a) <==> TcpSock.IsWildcard(t))
  {
  }

  predicate IsUDPNetwork(network: string) {
    network == "udp" || network == "udp4"
  }

  /**
   * ResolveUDPAddr's result as (IP, port); the zone is always empty. Unlike
   * ResolveTCPAddr there is no ":http" rewrite.
   */
  function ResolveUDP(network: string, address: string, lookup: Resolver): (r: Result<(IP, int), NetError>)
    ensures !IsUDPNetwork(network) ==> r == Err(NetworkNotSupported(network))
    ensures r.Ok? ==> SplitHostPort(address).Ok? && Atoi(SplitHostPort(address).value.1) == Some(r.value.1)
  {
    if !IsUDPNetwork(network) then Err(NetworkNotSupported(network))
    else
      match SplitHostPort(address)
      case Err(e) => Err(AddrError(e, address))
      case Ok(hs) =>
        var host, sport := hs.0, hs.1;
        match Atoi(sport)
        case None => Err(PortSyntax(sport))
        case Some(port) =>
          if host == "" then Ok((NilIP, port))
          else
            var ip, err := lookup(host).0, lookup(host).1;
            if err.Some? then Err(LookupFailed(host, err.value))
            else Ok((ip.AsSlice(), port))
  }

  /** Apart from the ":http" rewrite, UDP addresses resolve exactly as TCP addresses do. */
  lemma ResolveLikeTCP(network: string, tnetwork: string, address: string, lookup: Resolver)
    requires IsUDPNetwork(network) && TcpSock.IsTCPNetwork(tnetwork) && address != ":http"
    ensures ResolveUDP(network, address, lookup).Ok? == TcpSock.ResolveTCPAddr(tnetwork, address, lookup).Ok?
    ensures TcpSock.ResolveTCPAddr(tnetwork, address, lookup).Ok? ==>
      ResolveUDP(network, address, lookup).value ==
        (TcpSock.ResolveTCPAddr(tnetwork, address, lookup).value.ip, TcpSock.ResolveTCPAddr(tnetwork, address, lookup).value.port)
    ensures TcpSock.ResolveTCPAddr(tnetwork, address, lookup).Err? ==>
      ResolveUDP(network, address, lookup).error == TcpSock.ResolveTCPAddr(tnetwork, address, lookup).error
  {
    assert TcpSock.RewriteHttp(address) == address;
    if SplitHostPort(address).Ok? && Atoi(SplitHostPort(address).value.1).Some? {
      var host, sport := SplitHostPort(address).value.0, SplitHostPort(address).value.1;
      TcpSock.ResolveParts(tnetwork, address, lookup, host, sport, Atoi(sport).value);
    }
  }

  /** ":http" names a service, which ResolveUDPAddr does not know. */
  lemma ResolveUDPHttp(network: string, lookup: Resolver)
    requires IsUDPNetwork(network)
    ensures ResolveUDP(network, ":http", lookup) == Err(PortSyntax("http"))
  {
    TcpSock.HttpAddressSplits();
    TcpSock.ServiceIsNotANumber();
  }

  /** An address SplitHostPort rejects is returned with SplitHostPort's error. */
  lemma ResolveUDPSplitError(network: string, address: string, lookup: Resolver)
    requires IsUDPNetwork(network) && SplitHostPort(address).Err?
    ensures ResolveUDP(network, address, lookup) == Err(AddrError(SplitHostPort(address).error, address))
  {
  }

  /** ResolveUDPAddr: a new UDPAddr holding the resolved IP and port, or the error. */
  method ResolveUDPAddr(network: string, address: string, lookup: Resolver) returns (a: UDPAddr?, err: Option<NetError>)
    ensures var r := ResolveUDP(network, address, lookup);
      (r.Err? ==> a == null && err == Some(r.error)) &&
      (r.Ok? ==> a != null && fresh(a) && err.None? && a.ip == r.value.0 && a.port == r.value.1 && a.zone == "")
  {
    var r := ResolveUDP(network, address, lookup);
    if r.Err? {
      return null, Some(r.error);
    }
    a := new UDPAddr(r.value.0, r.value.1, "");
    err := None;
  }

  /** The value eport takes after 65535 wraps round to 49151. */
  function NextEport(e: int): (r: int)
    ensures 49151 <= e <= 65535 ==> 49151 <= r <= 65535
    ensures 49151 <= e < 65535 ==> r == e + 1
  {
    if e == 65535 then 49151 else e + 1
  }

  /** eport after k calls of ephemeralPort. */
  function EportAfter(k: nat): int {
    if k == 0 then 49151 else NextEport(EportAfter(k - 1))
  }

  /**
   * ephemeralPort cycles with period 16385 through 49152..65535 and then
   * 49151: the wrap hands out 49151, one below the RFC 6335 dynamic range
   * that udpsock.go names beside eport.
   */
  lemma {:induction false} EportCycle(k: nat)
    ensures EportAfter(k) == 49151 + k % 16385
    ensures 49151 <= EportAfter(k) <= 65535
  {
    if k > 0 {
      EportCycle(k - 1);
      var q := (k - 1) / 16385;
      var m := (k - 1) % 16385;
      if m == 16384 {
        ModOf(k, q + 1, 0);
      } else {
        ModOf(k, q, m + 1);
      }
    }
  }

  lemma ModOf(k: int, q: int, m: int)
    requires 0 <= m < 16385 && k == 16385 * q + m
    ensures k % 16385 == m
  {
  }

  /** The package variable eport and ephemeralPort. */
  class PortAllocator {
    var eport: int

    ghost predicate Valid()
      reads this
    {
      49151 <= eport <= 65535
    }

    constructor()
      ensures eport == EportAfter(0) && Valid()
    {
      eport := 49151;
    }

    /** ephemeralPort: advances eport and returns its new value. */
    method EphemeralPort() returns (p: int)
      requires Valid()
      modifies this
      ensures eport == NextEport(old(eport)) && p == eport && Valid()
    {
      if eport == 65535 {
        eport := 49151;
      } else {
        eport := eport + 1;
      }
      p := eport;
    }
  }

  /** k calls of ephemeralPort from a fresh counter give EportAfter(1) .. EportAfter(k). */
  method DrawPorts(ports: PortAllocator, k: nat) returns (drawn: seq<int>)
    requires ports.Valid() && ports.eport == EportAfter(0)
    modifies ports
    ensures |drawn| == k && ports.eport == EportAfter(k) && ports.Valid()
    ensures forall i :: 0 <= i < k ==> drawn[i] == EportAfter(i + 1) && 49151 <= drawn[i] <= 65535
  {
    drawn := [];
    var i := 0;
    while i < k
      invariant 0 <= i <= k && |drawn| == i
      invariant ports.eport == EportAfter(i) && ports.Valid()
      invariant forall j :: 0 <= j < i ==> drawn[j] == EportAfter(j + 1) && 49151 <= drawn[j] <= 65535
    {
      var p := ports.EphemeralPort();
      drawn := drawn + [p];
      i := i + 1;
    }
  }

  /** UDPConn: a connected UDP socket on a backend descriptor, with its two deadlines. */
  class UDPConn {
    const fd: int
    const net: string
    const laddr: UDPAddr?
    const raddr: UDPAddr?
    var readDeadline: Time
    var writeDeadline: Time

    constructor(fd: int, net: string, laddr: UDPAddr?, raddr: UDPAddr?)
      ensures this.fd == fd && this.net == net && this.laddr == laddr && this.raddr == raddr
      ensures readDeadline == NoDeadline && writeDeadline == NoDeadline
    {
      this.fd := fd;
      this.net := net;
      this.laddr := laddr;
      this.raddr := raddr;
      readDeadline := NoDeadline;
      writeDeadline := NoDeadline;
    }

    /** SyscallConn is not implemented. */
    function SyscallConn(): (err: Option<NetError>)
      ensures err.Some? && err.value.NotImplemented?
    {
      Some(NotImplemented("SyscallConn"))
    }

    /**
     * Read: Recv on the conn's descriptor with the read deadline; a negative
     * count becomes 0 and every error except io.EOF is wrapped as a "read" OpError.
     */
    method Read(n: Net, size: nat) returns (count: nat, err: Option<NetError>)
      requires n.Valid()
      modifies n, n.Backend()
      ensures var r := old(n.Answer(Recv(fd, size, 0, readDeadline)));
        n.Called(Recv(fd, size, 0, readDeadline), r) &&
        count == ClampCount(r.n) && err == ReadError(net, r.err)
    {
      var r := n.Do(Recv(fd, size, 0, readDeadline));
      count := ClampCount(r.n);
      err := ReadError(net, r.err);
    }

    /**
     * Write: Send of b on the conn's descriptor with the write deadline; a
     * negative count becomes 0 and every error is wrapped as a "write" OpError.
     */
    method Write(n: Net, b: seq<Byte>) returns (count: nat, err: Option<NetError>)
      requires n.Valid()
      modifies n, n.Backend()
      ensures var r := old(n.Answer(Send(fd, b, 0, writeDeadline)));
        n.Called(Send(fd, b, 0, writeDeadline), r) &&
        count == ClampCount(r.n) && err == WriteError(net, r.err)
    {
      var r := n.Do(Send(fd, b, 0, writeDeadline));
      count := ClampCount(r.n);
      err := WriteError(net, r.err);
    }

    /** ReadFrom is not implemented: no bytes, no address. */
    function ReadFrom(size: nat): (r: (nat, UDPAddr?, Option<NetError>))
      ensures r.0 == 0 && r.1 == null && r.2.Some? && r.2.value.NotImplemented?
    {
      (0, null, Some(NotImplemented("ReadFrom")))
    }

    /** ReadMsgUDP is not implemented: every result is zero. */
    function ReadMsgUDP(size: nat, oobSize: nat): (r: (nat, nat, int, UDPAddr?, Option<NetError>))
      ensures r.0 == 0 && r.1 == 0 && r.2 == 0 && r.3 == null && r.4.Some? && r.4.value.NotImplemented?
    {
      (0, 0, 0, null, Some(NotImplemented("ReadMsgUDP")))
    }

    /** WriteTo is not implemented: nothing is written. */
    function WriteTo(b: seq<Byte>, addr: UDPAddr?): (r: (nat, Option<NetError>))
      ensures r.0 == 0 && r.1.Some? && r.1.value.NotImplemented?
    {
      (0, Some(NotImplemented("WriteTo")))
    }

    /** WriteMsgUDP is not implemented: nothing is written. */
    function WriteMsgUDP(b: seq<Byte>, oob: seq<Byte>, addr: UDPAddr?): (r: (nat, nat, Option<NetError>))
      ensures r.0 == 0 && r.1 == 0 && r.2.Some? && r.2.value.NotImplemented?
    {
      (0, 0, Some(NotImplemented("WriteMsgUDP")))
    }

    /** Close: closes the descriptor on the backend. */
    method Close(n: Net) returns (err: Option<NetError>)
      requires n.Valid()
      modifies n, n.Backend()
      ensures var r := old(n.Answer(Call.Close(fd)));
        n.Called(Call.Close(fd), r) && err == r.err
    {
      var r := n.Do(Call.Close(fd));
      err := r.err;
    }

    function LocalAddr(): (a: UDPAddr?)
      ensures a == laddr
    {
      laddr
    }

    function RemoteAddr(): (a: UDPAddr?)
      ensures a == raddr
    {
      raddr
    }

    /** SetDeadline: sets both deadlines and succeeds. */
    method SetDeadline(t: Time) returns (err: Option<NetError>)
      modifies this
      ensures readDeadline == t && writeDeadline == t && err.None?
    {
      readDeadline := t;
      writeDeadline := t;
      err := None;
    }

    /** SetReadDeadline: sets the read deadline only and succeeds. */
    method SetReadDeadline(t: Time) returns (err: Option<NetError>)
      modifies this
      ensures readDeadline == t && writeDeadline == old(writeDeadline) && err.None?
    {
      readDeadline := t;
      err := None;
    }

    /** SetWriteDeadline: sets the write deadline only and succeeds. */
    method SetWriteDeadline(t: Time) returns (err: Option<NetError>)
      modifies this
      ensures writeDeadline == t && readDeadline == old(readDeadline) && err.None?
    {
      writeDeadline := t;
      err := None;
    }
  }

  /**
   * The calls DialUDP makes once the network and the remote IP are accepted:
   * a datagram Socket, Bind to the local IP and port, Connect to the remote IP
   * and port (both without their zones), and Close of the descriptor when Bind
   * or Connect fails. `out` is the descriptor of the new conn.
   */
  predicate DialUDPSteps(lip: IP, lport: int, rip: IP, rport: int, steps: seq<Event>, out: Result<int, NetError>) {
    |steps| >= 1 && steps[0].call == Socket(AF_INET, SOCK_DGRAM, IPPROTO_UDP) &&
    var s := steps[0].reply;
    if s.err.Some? then |steps| == 1 && out == Err(s.err.value)
    else
      |steps| >= 2 && steps[1].call == Call.Bind(s.n, ToAddrPort(lip, lport, "")) &&
      var b := steps[1].reply;
      if b.err.Some? then |steps| == 3 && steps[2].call == Call.Close(s.n) && out == Err(b.err.value)
      else
        |steps| >= 3 && steps[2].call == Connect(s.n, "", ToAddrPort(rip, rport, "")) &&
        var cr := steps[2].reply;
        if cr.err.Some? then |steps| == 4 && steps[3].call == Call.Close(s.n) && out == Err(cr.err.value)
        else |steps| == 3 && out == Ok(s.n)
  }

  /** DialUDP leaves no descriptor behind when it fails, and exactly the conn's when it succeeds. */
  lemma DialUDPNoLeak(lip: IP, lport: int, rip: IP, rport: int, steps: seq<Event>, out: Result<int, NetError>)
    requires DialUDPSteps(lip, lport, rip, rport, steps, out)
    ensures out.Err? ==> Leaked(steps) == {}
    ensures out.Ok? ==> Leaked(steps) == {out.value}
  {
    assert steps[..1][..0] == [];
    assert Leaked(steps[..1]) == Opened(steps[0]);
    if |steps| >= 2 {
      assert steps[..2][..1] == steps[..1];
      assert Leaked(steps[..2]) == Leaked(steps[..1]);
    }
    if |steps| >= 3 {
      assert steps[..3][..2] == steps[..2];
    }
    if |steps| == 4 {
      assert steps[..3] == steps[..|steps| - 1];
      assert Leaked(steps[..3]) == Leaked(steps[..2]);
    } else if |steps| == 3 {
      assert steps[..3] == steps;
    } else {
      assert steps[..1] == steps;
    }
  }

  /**
   * The wasip2 backend has no datagram sockets: DialUDP stops at Socket with
   * an unsupported-type error and the descriptor table is untouched.
   */
  lemma DialUDPOnWasip2(lip: IP, lport: int, rip: IP, rport: int, steps: seq<Event>, out: Result<int, NetError>,
                        w: Wasip2.Wasip2Netdev, t0: Wasip2.Table, t1: Wasip2.Table)
    requires DialUDPSteps(lip, lport, rip, rport, steps, out) && Replayed(Wasip2Dev(w), t0, steps, t1)
    ensures out == Err(UnsupportedSocketType(SOCK_DGRAM)) && |steps| == 1 && t1 == t0
  {
    var cs := Calls(steps);
    Wasip2.NoDatagramSockets(t0, w.net, AF_INET, SOCK_DGRAM, IPPROTO_UDP);
    var (r0, ta) := Wasip2.Step(t0, w.net, cs[0]);
    assert ta == t0 && r0.err == Some(UnsupportedSocketType(SOCK_DGRAM));
    assert Wasip2.Run(t0, w.net, cs).0[0] == r0;
    assert steps[0].reply == r0;
    assert cs[1..] == [];
    assert Wasip2.Run(t0, w.net, cs).1 == Wasip2.Run(ta, w.net, []).1;
  }

  /** Whether DialUDP gets past its checks to the backend calls. */
  predicate Reaches(network: string, rip: IP) {
    IsUDPNetwork(network) && !IsUnspecified(rip)
  }

  /**
   * DialUDP. A nil laddr or raddr is taken as a new &UDPAddr{}; a local port
   * of 0 is replaced, in the local UDPAddr itself, by the next ephemeral port,
   * and stays replaced even when a later step fails. The remote port is read
   * after that, so a raddr that is the same object as laddr connects to the
   * ephemeral port.
   */
  method DialUDP(n: Net, ports: PortAllocator, network: string, laddr: UDPAddr?, raddr: UDPAddr?)
    returns (c: UDPConn?, err: Option<NetError>, ghost steps: seq<Event>)
    requires n.Valid() && ports.Valid()
    modifies n, n.Backend(), ports, laddr
    ensures n.Ran(steps) && ports.Valid()
    ensures (c == null) == err.Some?
    ensures laddr != null ==> laddr.ip == old(laddr.ip) && laddr.zone == old(laddr.zone)
    ensures raddr != null ==> raddr.ip == old(raddr.ip) && raddr.zone == old(raddr.zone)
    ensures raddr != null && raddr != laddr ==> raddr.port == old(raddr.port)
    ensures !IsUDPNetwork(network) ==>
      steps == [] && err == Some(NetworkNotSupported(network)) &&
      unchanged(ports) && (laddr != null ==> unchanged(laddr))
    ensures IsUDPNetwork(network) && raddr != null && IsUnspecified(raddr.ip) ==>
      steps == [] && err == Some(LocalhostUnavailable) &&
      unchanged(ports) && (laddr != null ==> unchanged(laddr))
    ensures var rip := if raddr == null then NilIP else raddr.ip;
      var oldPort := if laddr == null then 0 else old(laddr.port);
      var lport := if oldPort == 0 then ports.eport else oldPort;
      Reaches(network, rip) ==>
        ports.eport == (if oldPort == 0 then NextEport(old(ports.eport)) else old(ports.eport)) &&
        (laddr != null ==> laddr.port == lport) &&
        DialUDPSteps(if laddr == null then NilIP else laddr.ip, lport,
                     rip, if raddr == null then 0 else raddr.port,
                     steps, if c == null then Err(err.value) else Ok(c.fd))
    ensures c != null ==>
      fresh(c) && c.net == network && c.readDeadline == NoDeadline && c.writeDeadline == NoDeadline &&
      c.laddr != null && c.raddr != null &&
      (laddr != null ==> c.laddr == laddr) && (laddr == null ==> fresh(c.laddr) && c.laddr.ip == NilIP && c.laddr.port == ports.eport && c.laddr.zone == "") &&
      (raddr != null ==> c.raddr == raddr) && (raddr == null ==> fresh(c.raddr) && c.raddr.ip == NilIP && c.raddr.port == 0 && c.raddr.zone == "")
  {
    steps := [];
    ReplayedEmpty(n.netdev, n.Table());
    if !IsUDPNetwork(network) {
      return null, Some(NetworkNotSupported(network)), steps;
    }
    var la := OrEmpty(laddr);
    var ra := OrEmpty(raddr);
    if IsUnspecified(ra.ip) {
      return null, Some(LocalhostUnavailable), steps;
    }
    SetLocalPort(ports, la);
    var fd;
    fd, err, steps := ConnectUDP(n, la, ra);
    c := null;
    if err.None? {
      c := new UDPConn(fd, network, la, ra);
    }
  }

  /** A nil address stands for a new &UDPAddr{}. */
  method OrEmpty(a: UDPAddr?) returns (b: UDPAddr)
    ensures a != null ==> b == a
    ensures a == null ==> fresh(b) && b.ip == NilIP && b.port == 0 && b.zone == ""
  {
    if a == null {
      b := new UDPAddr(NilIP, 0, "");
    } else {
      b := a;
    }
  }

  /** A local port of 0 is replaced, in the address itself, by the next ephemeral port. */
  method SetLocalPort(ports: PortAllocator, la: UDPAddr)
    requires ports.Valid()
    modifies ports, la
    ensures ports.Valid() && la.ip == old(la.ip) && la.zone == old(la.zone)
    ensures old(la.port) == 0 ==> ports.eport == NextEport(old(ports.eport)) && la.port == ports.eport
    ensures old(la.port) != 0 ==> unchanged(ports) && la.port == old(la.port)
  {
    if la.port == 0 {
      var p := ports.EphemeralPort();
      la.port := p;
    }
  }

  /** The backend calls of DialUDP, from Socket on, for the local and remote addresses it settled on. */
  method ConnectUDP(n: Net, la: UDPAddr, ra: UDPAddr) returns (fd: int, err: Option<NetError>, ghost steps: seq<Event>)
    requires n.Valid()
    modifies n, n.Backend()
    ensures n.Ran(steps)
    ensures DialUDPSteps(la.ip, la.port, ra.ip, ra.port, steps, if err.Some? then Err(err.value) else Ok(fd))
  {
    ghost var t0 := n.Table();
    var s := n.Do(Socket(AF_INET, SOCK_DGRAM, IPPROTO_UDP));
    steps := [Event(Socket(AF_INET, SOCK_DGRAM, IPPROTO_UDP), s)];
    fd := s.n;
    if s.err.Some? {
      return fd, s.err, steps;
    }
    var laddrport := ToAddrPort(la.ip, la.port, "");
    var b := n.DoNext(Call.Bind(fd, laddrport), t0, steps);
    steps := steps + [Event(Call.Bind(fd, laddrport), b)];
    if b.err.Some? {
      var cl := n.DoNext(Call.Close(fd), t0, steps);
      steps := steps + [Event(Call.Close(fd), cl)];
      return fd, b.err, steps;
    }
    var raddrport := ToAddrPort(ra.ip, ra.port, "");
    var cr := n.DoNext(Connect(fd, "", raddrport), t0, steps);
    steps := steps + [Event(Connect(fd, "", raddrport), cr)];
    if cr.err.Some? {
      var cl := n.DoNext(Call.Close(fd), t0, steps);
      steps := steps + [Event(Call.Close(fd), cl)];
      return fd, cr.err, steps;
    }
    err := None;
  }
}

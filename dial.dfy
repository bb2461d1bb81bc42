/**
 * Dialing and listening by network name: Dial, DialTimeout, Dialer.Dial and
 * Dialer.DialContext dispatch to the TCP or UDP resolver and dialer, Listen to
 * the TCP resolver and listenTCP; parseNetwork splits a network name such as
 * "ip4:1" into an address family and a protocol number. The lookup stubs of
 * lookup.go are here too.
 */
module Dial {
  import opened Wrappers
  import opened GoStrings
  import opened Netip
  import opened Netdever
  import opened Netdev
  import TcpSock
  import UdpSock

  /**
   * The Conn a dial returns. DialContext hands back what DialTCP or DialUDP
   * returns, so a Conn may hold a nil *TCPConn or *UDPConn.
   */
  datatype Conn = TCP(tc: TcpSock.TCPConn?) | UDP(uc: UdpSock.UDPConn?) {
    /** The Conn is not nil as an interface value, but the pointer inside it is. */
    predicate HoldsNil() {
      if TCP? then tc == null else uc == null
    }
  }

  /** The descriptor under a Conn. */
  function ConnFd(c: Conn): int
    requires !c.HoldsNil()
  {
    if c.TCP? then c.tc.fd else c.uc.fd
  }

  /** What a dial's two results report: the descriptor of a live conn, or the error. */
  function Outcome(c: Option<Conn>, err: Option<NetError>): Result<int, NetError>
    requires (c.Some? && !c.value.HoldsNil()) || err.Some?
  {
    if c.Some? && !c.value.HoldsNil() then Ok(ConnFd(c.value)) else Err(err.value)
  }

  /**
   * What a live Conn from a dial by name holds. A TCPConn holds the network,
   * no local address and the resolved remote address, as DialTCP(network,
   * nil, raddr) builds it. A UDPConn holds the network, the new &UDPAddr{}
   * whose port DialUDP set to the ephemeral port eport, and the resolved
   * remote address.
   */
  predicate AsDialed(c: Conn, network: string, address: string, lookup: Resolver, eport: int)
    requires !c.HoldsNil()
    reads if c.UDP? then {c.uc, c.uc.laddr, c.uc.raddr} else {}
  {
    if c.TCP? then
      TcpSock.ResolveTCPAddr(network, address, lookup).Ok? &&
      c.tc.Info() == TcpSock.ConnInfo(c.tc.fd, network, None, Some(TcpSock.ResolveTCPAddr(network, address, lookup).value))
    else
      var uc := c.uc;
      UdpSock.ResolveUDP(network, address, lookup).Ok? &&
      uc.net == network && uc.laddr != null && uc.raddr != null &&
      uc.laddr.ip == NilIP && uc.laddr.port == eport && uc.laddr.zone == "" &&
      uc.raddr.ip == UdpSock.ResolveUDP(network, address, lookup).value.0 &&
      uc.raddr.port == UdpSock.ResolveUDP(network, address, lookup).value.1 && uc.raddr.zone == ""
  }

  /**
   * Dialer. Its options are carried but no dial reads them; LocalAddr, an
   * interface value, is not part of this model.
   */
  datatype Dialer = Dialer(timeout: int, deadline: Time, keepAlive: int)

  const ZeroDialer := Dialer(0, NoDeadline, 0)

  /**
   * What a dial by network name does, given the backend's lookup and the
   * ephemeral port counter before the call: a TCP network resolves and then
   * dials with a nil local address; a UDP network resolves and then dials with
   * a nil local address, which takes the next ephemeral port; a resolve error
   * is returned before any backend call; any other network is refused without
   * one. `out` is the descriptor of the new conn.
   */
  predicate DialOutcome(network: string, address: string, lookup: Resolver, eport0: int,
                        steps: seq<Event>, out: Result<int, NetError>)
  {
    if TcpSock.IsTCPNetwork(network) then
      match TcpSock.ResolveTCPAddr(network, address, lookup)
      case Err(e) => steps == [] && out == Err(e)
      case Ok(ra) =>
        TcpSock.DialTCPSteps(network, None, Some(ra), steps,
          match out
          case Ok(fd) => Ok(TcpSock.ConnInfo(fd, network, None, Some(ra)))
          case Err(e) => Err(e))
    else if UdpSock.IsUDPNetwork(network) then
      match UdpSock.ResolveUDP(network, address, lookup)
      case Err(e) => steps == [] && out == Err(e)
      case Ok(ipport) =>
        var ip, port := ipport.0, ipport.1;
        if IsUnspecified(ip) then steps == [] && out == Err(LocalhostUnavailable)
        else UdpSock.DialUDPSteps(NilIP, UdpSock.NextEport(eport0), ip, port, steps, out)
    else steps == [] && out == Err(NetworkNotSupported(network))
  }

  /** Whether a dial by name gets past resolving the address, on to DialTCP or DialUDP. */
  predicate Reaches(network: string, address: string, lookup: Resolver) {
    if TcpSock.IsTCPNetwork(network) then TcpSock.ResolveTCPAddr(network, address, lookup).Ok?
    else UdpSock.IsUDPNetwork(network) && UdpSock.ResolveUDP(network, address, lookup).Ok?
  }

  /**
   * The ephemeral port counter after a dial by name: DialUDP, given a nil
   * local address, takes the next port once the remote IP passes its check;
   * every other dial leaves the counter alone.
   */
  function EportAfterDial(network: string, address: string, lookup: Resolver, eport0: int): int {
    if !TcpSock.IsTCPNetwork(network) && UdpSock.IsUDPNetwork(network) &&
       UdpSock.ResolveUDP(network, address, lookup).Ok? &&
       !IsUnspecified(UdpSock.ResolveUDP(network, address, lookup).value.0)
    then UdpSock.NextEport(eport0)
    else eport0
  }

  /** A dial by name takes an ephemeral port exactly when it opens a datagram socket. */
  lemma DialTakesPort(network: string, address: string, lookup: Resolver, eport0: int,
                      steps: seq<Event>, out: Result<int, NetError>)
    requires DialOutcome(network, address, lookup, eport0, steps, out)
    ensures EportAfterDial(network, address, lookup, eport0) != eport0 <==>
      |steps| > 0 && steps[0].call == Socket(AF_INET, SOCK_DGRAM, IPPROTO_UDP)
  {
    if TcpSock.IsTCPNetwork(network) && TcpSock.ResolveTCPAddr(network, address, lookup).Ok? {
      var ra := TcpSock.ResolveTCPAddr(network, address, lookup).value;
      var info := if out.Ok? then Ok(TcpSock.ConnInfo(out.value, network, None, Some(ra))) else Err(out.error);
      assert TcpSock.DialTCPSteps(network, None, Some(ra), steps, info);
      assert |steps| > 0 ==> steps[0].call == Socket(AF_INET, SOCK_STREAM, IPPROTO_TCP);
    }
  }

  /** A network that is neither TCP nor UDP is refused without any backend call. */
  lemma DialOtherNetwork(network: string, address: string, lookup: Resolver, eport0: int,
                         steps: seq<Event>, out: Result<int, NetError>)
    requires DialOutcome(network, address, lookup, eport0, steps, out)
    requires !TcpSock.IsTCPNetwork(network) && !UdpSock.IsUDPNetwork(network)
    ensures steps == [] && Leaked(steps) == {} && out == Err(NetworkNotSupported(network))
  {
  }

  /** A dial by name leaves no descriptor behind when it fails, and exactly the conn's when it succeeds. */
  lemma DialNoLeak(network: string, address: string, lookup: Resolver, eport0: int,
                   steps: seq<Event>, out: Result<int, NetError>)
    requires DialOutcome(network, address, lookup, eport0, steps, out)
    ensures out.Err? ==> Leaked(steps) == {}
    ensures out.Ok? ==> Leaked(steps) == {out.value}
  {
    if TcpSock.IsTCPNetwork(network) {
      match TcpSock.ResolveTCPAddr(network, address, lookup)
      case Err(e) =>
      case Ok(ra) =>
        var info := match out
          case Ok(fd) => Ok(TcpSock.ConnInfo(fd, network, None, Some(ra)))
          case Err(e) => Err(e);
        TcpSock.DialTCPNoLeak(network, None, Some(ra), steps, info);
    } else if UdpSock.IsUDPNetwork(network) {
      match UdpSock.ResolveUDP(network, address, lookup)
      case Err(e) =>
      case Ok(ipport) =>
        var ip, port := ipport.0, ipport.1;
        if !IsUnspecified(ip) {
          UdpSock.DialUDPNoLeak(NilIP, UdpSock.NextEport(eport0), ip, port, steps, out);
        }
    }
  }

  /**
   * Dialer.DialContext. The context is not part of this model: it is ignored.
   * The Conn is missing only when the network is refused or the address does
   * not resolve; after a failed DialTCP or DialUDP it is present and holds nil.
   */
  method DialContext(n: Net, ports: UdpSock.PortAllocator, d: Dialer, network: string, address: string)
    returns (c: Option<Conn>, err: Option<NetError>, ghost steps: seq<Event>)
    requires n.Valid() && ports.Valid()
    modifies n, n.Backend(), ports
    ensures n.Ran(steps) && ports.Valid()
    ensures ports.eport == EportAfterDial(network, address, old(n.Lookup()), old(ports.eport))
    ensures c.None? <==> !Reaches(network, address, old(n.Lookup()))
    ensures err.None? <==> c.Some? && !c.value.HoldsNil()
    ensures c.Some? ==> (c.value.TCP? <==> TcpSock.IsTCPNetwork(network))
    ensures c.Some? && !c.value.HoldsNil() ==> fresh(if c.value.TCP? then c.value.tc as object else c.value.uc)
    ensures c.Some? && !c.value.HoldsNil() ==> AsDialed(c.value, network, address, old(n.Lookup()), ports.eport)
    ensures DialOutcome(network, address, old(n.Lookup()), old(ports.eport), steps, Outcome(c, err))
  {
    if TcpSock.IsTCPNetwork(network) {
      c, err, steps := DialByTCP(n, ports, network, address);
    } else if UdpSock.IsUDPNetwork(network) {
      c, err, steps := DialByUDP(n, ports, network, address);
    } else {
      steps := [];
      ReplayedEmpty(n.netdev, n.Table());
      c, err := None, Some(NetworkNotSupported(network));
    }
  }

  /** The TCP branch of DialContext: DialTCP's result is returned as it is. */
  method DialByTCP(n: Net, ports: UdpSock.PortAllocator, network: string, address: string)
    returns (c: Option<Conn>, err: Option<NetError>, ghost steps: seq<Event>)
    requires n.Valid() && ports.Valid() && TcpSock.IsTCPNetwork(network)
    modifies n, n.Backend()
    ensures n.Ran(steps) && ports.Valid()
    ensures c.None? <==> TcpSock.ResolveTCPAddr(network, address, old(n.Lookup())).Err?
    ensures err.None? <==> c.Some? && !c.value.HoldsNil()
    ensures c.Some? ==> c.value.TCP?
    ensures c.Some? && !c.value.HoldsNil() ==> fresh(c.value.tc)
    ensures c.Some? && !c.value.HoldsNil() ==> AsDialed(c.value, network, address, old(n.Lookup()), ports.eport)
    ensures DialOutcome(network, address, old(n.Lookup()), old(ports.eport), steps, Outcome(c, err))
  {
    var r := TcpSock.ResolveTCPAddr(network, address, n.Lookup());
    if r.Err? {
      steps := [];
      ReplayedEmpty(n.netdev, n.Table());
      return None, Some(r.error), steps;
    }
    var tc;
    tc, err, steps := TcpSock.DialTCP(n, network, None, Some(r.value));
    c := Some(TCP(tc));
  }

  /** The UDP branch of DialContext: DialUDP's result is returned as it is. */
  method DialByUDP(n: Net, ports: UdpSock.PortAllocator, network: string, address: string)
    returns (c: Option<Conn>, err: Option<NetError>, ghost steps: seq<Event>)
    requires n.Valid() && ports.Valid() && UdpSock.IsUDPNetwork(network)
    modifies n, n.Backend(), ports
    ensures n.Ran(steps) && ports.Valid()
    ensures ports.eport == EportAfterDial(network, address, old(n.Lookup()), old(ports.eport))
    ensures c.None? <==> UdpSock.ResolveUDP(network, address, old(n.Lookup())).Err?
    ensures err.None? <==> c.Some? && !c.value.HoldsNil()
    ensures c.Some? ==> c.value.UDP?
    ensures c.Some? && !c.value.HoldsNil() ==> fresh(c.value.uc)
    ensures c.Some? && !c.value.HoldsNil() ==> AsDialed(c.value, network, address, old(n.Lookup()), ports.eport)
    ensures DialOutcome(network, address, old(n.Lookup()), old(ports.eport), steps, Outcome(c, err))
  {
    ghost var lookup, eport0 := n.Lookup(), ports.eport;
    var raddr;
    raddr, err := UdpSock.ResolveUDPAddr(network, address, n.Lookup());
    if raddr == null {
      steps := [];
      ReplayedEmpty(n.netdev, n.Table());
      return None, err, steps;
    }
    ghost var ip, port := raddr.ip, raddr.port;
    var uc;
    uc, err, steps := UdpSock.DialUDP(n, ports, network, null, raddr);
    ghost var out: Result<int, NetError> := if uc == null then Err(err.value) else Ok(uc.fd);
    assert UdpSock.Reaches(network, ip) ==> UdpSock.DialUDPSteps(NilIP, UdpSock.NextEport(eport0), ip, port, steps, out);
    c := Some(UDP(uc));
    assert Outcome(c, err) == out;
    UdpOutcome(network, address, lookup, eport0, steps, out, ip, port);
  }

  /** The outcome of the UDP branch of DialContext is the one DialOutcome describes. */
  lemma UdpOutcome(network: string, address: string, lookup: Resolver, eport0: int,
                   steps: seq<Event>, out: Result<int, NetError>, ip: IP, port: int)
    requires UdpSock.IsUDPNetwork(network) && UdpSock.ResolveUDP(network, address, lookup) == Ok((ip, port))
    requires IsUnspecified(ip) ==> steps == [] && out == Err(LocalhostUnavailable)
    requires !IsUnspecified(ip) ==> UdpSock.DialUDPSteps(NilIP, UdpSock.NextEport(eport0), ip, port, steps, out)
    ensures DialOutcome(network, address, lookup, eport0, steps, out)
  {
  }

  /**
   * Dial("tcp", ":80") on the nop backend resolves, so DialTCP runs, and
   * DialTCP fails at Socket with ErrNetdevNotSet.
   */
  lemma NopDialHoldsNil(lookup: Resolver, eport0: int, steps: seq<Event>, out: Result<int, NetError>,
                        t0: Wasip2.Table, t1: Wasip2.Table)
    requires DialOutcome("tcp", ":80", lookup, eport0, steps, out) && Replayed(NopDev, t0, steps, t1)
    ensures Reaches("tcp", ":80", lookup) && out == Err(NetdevNotSet)
  {
    TcpSock.ResolveHttp("tcp", lookup);
    var ra := TcpSock.TCPAddr(NilIP, 80, "");
    var info := match out
      case Ok(fd) => Ok(TcpSock.ConnInfo(fd, "tcp", None, Some(ra)))
      case Err(e) => Err(e);
    TcpSock.DialTCPOnNop("tcp", None, Some(ra), steps, info, t0, t1);
  }

  /**
   * The code as written, run: Dial("tcp", ":80") on a fresh Net, whose backend
   * is the nop one, returns a Conn that is not nil but holds a nil TCPConn,
   * together with ErrNetdevNotSet.
   */
  method NopDialTypedNil() returns (c: Option<Conn>, err: Option<NetError>)
    ensures c.Some? && c.value.HoldsNil() && err == Some(NetdevNotSet)
  {
    var n := new Net();
    var ports := new UdpSock.PortAllocator();
    ghost var lookup := n.Lookup();
    ghost var t0 := n.Table();
    ghost var eport0 := ports.eport;
    ghost var steps;
    c, err, steps := Dial(n, ports, "tcp", ":80");
    NopDialHoldsNil(lookup, eport0, steps, Outcome(c, err), t0, n.Table());
  }

  /**
   * DialContext as evidently intended: a failed DialTCP or DialUDP gives a
   * nil Conn, so there is a Conn exactly when there is no error.
   */
  method DialContextNilOnError(n: Net, ports: UdpSock.PortAllocator, d: Dialer, network: string, address: string)
    returns (c: Option<Conn>, err: Option<NetError>, ghost steps: seq<Event>)
    requires n.Valid() && ports.Valid()
    modifies n, n.Backend(), ports
    ensures n.Ran(steps) && ports.Valid()
    ensures ports.eport == EportAfterDial(network, address, old(n.Lookup()), old(ports.eport))
    ensures c.Some? <==> err.None?
    ensures c.Some? ==> !c.value.HoldsNil() && (c.value.TCP? <==> TcpSock.IsTCPNetwork(network))
    ensures DialOutcome(network, address, old(n.Lookup()), old(ports.eport), steps, Outcome(c, err))
  {
    c, err, steps := DialContext(n, ports, d, network, address);
    if c.Some? && c.value.HoldsNil() {
      c := None;
    }
  }

  /** Dialer.Dial: DialContext with a background context. */
  method DialerDial(n: Net, ports: UdpSock.PortAllocator, d: Dialer, network: string, address: string)
    returns (c: Option<Conn>, err: Option<NetError>, ghost steps: seq<Event>)
    requires n.Valid() && ports.Valid()
    modifies n, n.Backend(), ports
    ensures n.Ran(steps) && ports.Valid()
    ensures ports.eport == EportAfterDial(network, address, old(n.Lookup()), old(ports.eport))
    ensures c.None? <==> !Reaches(network, address, old(n.Lookup()))
    ensures err.None? <==> c.Some? && !c.value.HoldsNil()
    ensures c.Some? ==> (c.value.TCP? <==> TcpSock.IsTCPNetwork(network))
    ensures c.Some? && !c.value.HoldsNil() ==> fresh(if c.value.TCP? then c.value.tc as object else c.value.uc)
    ensures c.Some? && !c.value.HoldsNil() ==> AsDialed(c.value, network, address, old(n.Lookup()), ports.eport)
    ensures DialOutcome(network, address, old(n.Lookup()), old(ports.eport), steps, Outcome(c, err))
  {
    c, err, steps := DialContext(n, ports, d, network, address);
  }

  /** Dial: Dialer.Dial of the zero Dialer. */
  method Dial(n: Net, ports: UdpSock.PortAllocator, network: string, address: string)
    returns (c: Option<Conn>, err: Option<NetError>, ghost steps: seq<Event>)
    requires n.Valid() && ports.Valid()
    modifies n, n.Backend(), ports
    ensures n.Ran(steps) && ports.Valid()
    ensures ports.eport == EportAfterDial(network, address, old(n.Lookup()), old(ports.eport))
    ensures c.None? <==> !Reaches(network, address, old(n.Lookup()))
    ensures err.None? <==> c.Some? && !c.value.HoldsNil()
    ensures c.Some? ==> (c.value.TCP? <==> TcpSock.IsTCPNetwork(network))
    ensures c.Some? && !c.value.HoldsNil() ==> fresh(if c.value.TCP? then c.value.tc as object else c.value.uc)
    ensures c.Some? && !c.value.HoldsNil() ==> AsDialed(c.value, network, address, old(n.Lookup()), ports.eport)
    ensures DialOutcome(network, address, old(n.Lookup()), old(ports.eport), steps, Outcome(c, err))
  {
    c, err, steps := DialerDial(n, ports, ZeroDialer, network, address);
  }

  /**
   * DialTimeout: Dialer.Dial of a Dialer holding the timeout. The timeout is
   * never read, so the outcome is the one Dial is held to.
   */
  method DialTimeout(n: Net, ports: UdpSock.PortAllocator, network: string, address: string, timeout: int)
    returns (c: Option<Conn>, err: Option<NetError>, ghost steps: seq<Event>)
    requires n.Valid() && ports.Valid()
    modifies n, n.Backend(), ports
    ensures n.Ran(steps) && ports.Valid()
    ensures ports.eport == EportAfterDial(network, address, old(n.Lookup()), old(ports.eport))
    ensures c.None? <==> !Reaches(network, address, old(n.Lookup()))
    ensures err.None? <==> c.Some? && !c.value.HoldsNil()
    ensures c.Some? ==> (c.value.TCP? <==> TcpSock.IsTCPNetwork(network))
    ensures c.Some? && !c.value.HoldsNil() ==> fresh(if c.value.TCP? then c.value.tc as object else c.value.uc)
    ensures c.Some? && !c.value.HoldsNil() ==> AsDialed(c.value, network, address, old(n.Lookup()), ports.eport)
    ensures DialOutcome(network, address, old(n.Lookup()), old(ports.eport), steps, Outcome(c, err))
  {
    c, err, steps := DialerDial(n, ports, Dialer(timeout, NoDeadline, 0), network, address);
  }

  /**
   * Listen: only "tcp" and "tcp4"; the address is resolved, a resolve error
   * is returned before any backend call, and then listenTCP runs.
   */
  method Listen(n: Net, network: string, address: string)
    returns (res: Result<TcpSock.Listener, NetError>, ghost steps: seq<Event>)
    requires n.Valid()
    modifies n, n.Backend()
    ensures n.Ran(steps)
    ensures !TcpSock.IsTCPNetwork(network) ==> steps == [] && res == Err(NetworkNotSupported(network))
    ensures TcpSock.IsTCPNetwork(network) && TcpSock.ResolveTCPAddr(network, address, old(n.Lookup())).Err? ==>
      steps == [] && res == Err(TcpSock.ResolveTCPAddr(network, address, old(n.Lookup())).error)
    ensures TcpSock.IsTCPNetwork(network) && TcpSock.ResolveTCPAddr(network, address, old(n.Lookup())).Ok? ==>
      TcpSock.ListenTCPSteps(TcpSock.ResolveTCPAddr(network, address, old(n.Lookup())).value, steps, res)
  {
    steps := [];
    ReplayedEmpty(n.netdev, n.Table());
    if !TcpSock.IsTCPNetwork(network) {
      return Err(NetworkNotSupported(network)), steps;
    }
    var r := TcpSock.ResolveTCPAddr(network, address, n.Lookup());
    if r.Err? {
      return Err(r.error), steps;
    }
    res, steps := TcpSock.ListenTCP(n, r.value);
  }

  /** ListenConfig. Its options are carried but not read. */
  datatype ListenConfig = ListenConfig(keepAlive: int) {
    /** ListenConfig.Listen is not implemented. */
    function Listen(network: string, address: string): (r: Result<TcpSock.Listener, NetError>)
      ensures r.Err? && r.error.NotImplemented?
    {
      Err(NotImplemented("ListenConfig.Listen"))
    }

    /** ListenConfig.ListenPacket is not implemented. */
    function ListenPacket(network: string, address: string): (r: Result<UdpSock.UDPConn, NetError>)
      ensures r.Err? && r.error.NotImplemented?
    {
      Err(NotImplemented("ListenConfig.ListenPacket"))
    }
  }

  /** LookupPort is not implemented. */
  function LookupPort(network: string, service: string): (r: (int, Option<NetError>))
    ensures r.0 == 0 && r.1.Some? && r.1.value.NotImplemented?
  {
    (0, Some(NotImplemented("LookupPort")))
  }

  /** lookupProtocol is not implemented. */
  function LookupProtocol(name: string): (r: Result<int, NetError>)
    ensures r.Err? && r.error.NotImplemented?
  {
    Err(NotImplemented("lookupProtocol"))
  }

  /** dtoi's bound: a value at or above it is refused. */
  const Big := 0xFFFFFF

  /** The protocol texts dtoi reads entirely: one or more digits with a value below Big. */
  predicate Decimal(s: string) {
    |s| > 0 && AllDigits(s) && DecimalValue(s) < Big
  }

  lemma {:induction false} PrefixValue(s: string, j: nat)
    requires AllDigits(s) && j <= |s|
    ensures AllDigits(s[..j]) && DecimalValue(s[..j]) <= DecimalValue(s)
    decreases |s|
  {
    if j < |s| {
      var t := s[..|s| - 1];
      assert t[..j] == s[..j];
      PrefixValue(t, j);
    } else {
      assert s[..j] == s;
    }
  }

  /**
   * dtoi: the decimal number at the start of s, the count of digits read, and
   * whether it succeeded. It stops at the first non-digit and fails when no
   * digit was read or the value reached Big.
   */
  method Dtoi(s: string) returns (n: int, i: int, ok: bool)
    ensures 0 <= i <= |s|
    ensures ok ==> 0 < i && AllDigits(s[..i]) && n == DecimalValue(s[..i]) && n < Big && (i < |s| ==> !IsDigit(s[i]))
    ensures (ok && i == |s|) <==> Decimal(s)
    ensures ok && i == |s| ==> n == DecimalValue(s)
  {
    n, i := 0, 0;
    while i < |s| && IsDigit(s[i])
      invariant 0 <= i <= |s| && AllDigits(s[..i]) && n == DecimalValue(s[..i]) && n < Big
    {
      assert s[..i + 1][..i] == s[..i];
      n := n * 10 + (s[i] as int - '0' as int);
      assert n == DecimalValue(s[..i + 1]);
      if n >= Big {
        if AllDigits(s) {
          PrefixValue(s, i + 1);
        }
        return Big, i, false;
      }
      i := i + 1;
    }
    if i == 0 {
      return 0, 0, false;
    }
    assert i == |s| ==> s[..i] == s;
    ok := true;
  }

  predicate IsIPFamily(afnet: string) {
    afnet == "ip" || afnet == "ip4" || afnet == "ip6"
  }

  /** The network names parseNetwork accepts without a colon (the ip names only without needsProto). */
  predicate KnownNetwork(network: string, needsProto: bool) {
    network in ["tcp", "tcp4", "tcp6", "udp", "udp4", "udp6", "unix", "unixgram", "unixpacket"] ||
    (IsIPFamily(network) && !needsProto)
  }

  /**
   * parseNetwork: without a colon, a known network name with protocol 0;
   * with one, an ip family before the last colon and a protocol number after
   * it, which lookupProtocol is asked for when it is not a plain decimal.
   */
  function ParseNetwork(network: string, needsProto: bool): (r: Result<(string, int), NetError>)
    ensures r.Ok? ==> 0 <= r.value.1 < Big
  {
    var i := LastIndexByte(network, ':');
    if i < 0 then
      if KnownNetwork(network, needsProto) then Ok((network, 0)) else Err(UnknownNetwork(network))
    else
      var afnet := network[..i];
      if IsIPFamily(afnet) then
        var protostr := network[i + 1..];
        if Decimal(protostr) then Ok((afnet, DecimalValue(protostr)))
        else
          match LookupProtocol(protostr)
          case Err(e) => Err(e)
          case Ok(proto) => Ok((afnet, proto))
      else Err(UnknownNetwork(network))
  }

  /** Without a colon the name is accepted exactly when it is known, with protocol 0. */
  lemma ParseNetworkPlain(network: string, needsProto: bool)
    requires ':' !in network
    ensures ParseNetwork(network, needsProto) ==
      if KnownNetwork(network, needsProto) then Ok((network, 0)) else Err(UnknownNetwork(network))
    ensures needsProto && IsIPFamily(network) ==> ParseNetwork(network, needsProto) == Err(UnknownNetwork(network))
  {
  }

  /**
   * An ip family, a colon and decimal text below Big give the family and the
   * value of that text, leading zeros included ("ip4:007" is protocol 7).
   */
  lemma ParseNetworkDecimal(afnet: string, p: string, needsProto: bool)
    requires IsIPFamily(afnet) && Decimal(p)
    ensures ParseNetwork(afnet + ":" + p, needsProto) == Ok((afnet, DecimalValue(p)))
  {
    var s := afnet + ":" + p;
    assert ':' !in p by {
      forall k | 0 <= k < |p| ensures p[k] != ':' { assert IsDigit(p[k]); }
    }
    assert s[|afnet| + 1..] == p;
    LastIndexByteAt(s, ':', |afnet|);
    assert s[..|afnet|] == afnet;
  }

  /** An ip family and a protocol number below Big come back from their "family:number" form. */
  lemma ParseNetworkProto(afnet: string, proto: nat, needsProto: bool)
    requires IsIPFamily(afnet) && proto < Big
    ensures ParseNetwork(afnet + ":" + Itoa(proto), needsProto) == Ok((afnet, proto))
  {
    DigitsValue(proto);
    ParseNetworkDecimal(afnet, Itoa(proto), needsProto);
  }

  /** Any protocol text that is not a plain decimal below Big is sent to lookupProtocol, which fails. */
  lemma ParseNetworkNamedProto(afnet: string, name: string, needsProto: bool)
    requires IsIPFamily(afnet) && ':' !in name && !Decimal(name)
    ensures ParseNetwork(afnet + ":" + name, needsProto) == Err(NotImplemented("lookupProtocol"))
  {
    var s := afnet + ":" + name;
    assert s[|afnet| + 1..] == name;
    LastIndexByteAt(s, ':', |afnet|);
    assert s[..|afnet|] == afnet;
  }

  /** A prefix other than an ip family is refused, naming the whole network. */
  lemma ParseNetworkOtherFamily(network: string, needsProto: bool)
    requires ':' in network && !IsIPFamily(network[..LastIndexByte(network, ':')])
    ensures ParseNetwork(network, needsProto) == Err(UnknownNetwork(network))
  {
  }
}

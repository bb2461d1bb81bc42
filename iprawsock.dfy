/**
 * IP end point addresses. Raw IP connections are not implemented: resolving
 * an IP address and every IPConn operation fail.
 */
module IPRawSock {
  import opened Wrappers
  import opened GoStrings
  import opened Netip
  import opened Netdever
  import opened Endpoint
  import TcpSock

  /** IPAddr: an IP and its IPv6 zone. A *IPAddr is an Option<IPAddr>. */
  datatype IPAddr = IPAddr(ip: IP, zone: string)

  /** IPAddr.Network is always "ip". */
  function Network(a: Option<IPAddr>): (r: string)
    ensures r == "ip"
  {
    "ip"
  }

  /**
   * IPAddr.String: "<nil>" for nil; otherwise the IP text with "%zone" when
   * there is a zone, and neither a port nor brackets.
   */
  function String(a: Option<IPAddr>): (r: string)
    ensures a.None? ==> r == "<nil>"
    ensures a.Some? && a.value.zone == "" ==> r == IPEmptyString(a.value.ip)
    ensures a.Some? && a.value.zone != "" ==> r == IPEmptyString(a.value.ip) + "%" + a.value.zone
    ensures a.Some? && NoBrackets(a.value.zone) ==> NoBrackets(r)
  {
    if a.None? then "<nil>"
    else
      IPTextNoBrackets(a.value.ip);
      HostText(a.value.ip, a.value.zone)
  }

  /** The text of an IPAddr is the host part of the text of a TCPAddr with the same IP and zone. */
  lemma StringIsTCPHost(a: IPAddr, port: int)
    requires NoBrackets(a.zone)
    ensures SplitHostPort(TcpSock.String(Some(TcpSock.TCPAddr(a.ip, port, a.zone)))) == Ok((String(Some(a)), Itoa(port)))
  {
  }

  /** IPAddr.isWildcard: nil, a nil IP, or an unspecified IP. */
  predicate IsWildcard(a: Option<IPAddr>) {
    a.None? || Wildcard(a.value.ip)
  }

  /** An IPAddr is a wildcard exactly when a TCPAddr with its IP and zone is. */
  lemma WildcardLikeTCP(a: Option<IPAddr>, port: int)
    ensures IsWildcard(a) <==>
      TcpSock.IsWildcard(if a.None? then None else Some(TcpSock.TCPAddr(a.value.ip, port, a.value.zone)))
    ensures IsWildcard(a) <==> a.None? || a.value.ip.NilIP? || IsUnspecified(a.value.ip)
  {
  }

  /** IPAddr.opAddr: nil stays nil, anything else is itself. */
  function OpAddr(a: Option<IPAddr>): (r: Option<IPAddr>)
    ensures r.None? <==> a.None?
    ensures a.Some? ==> r == a
  {
    a
  }

  /** ResolveIPAddr is not implemented. */
  function ResolveIPAddr(network: string, address: string): (r: Result<IPAddr, NetError>)
    ensures r.Err? && r.error.NotImplemented?
  {
    Err(NotImplemented("ResolveIPAddr"))
  }

  /** IPConn: every operation of its own is a stub that fails. */
  datatype IPConn = IPConn {
    function SyscallConn(): (err: Option<NetError>)
      ensures err.Some? && err.value.NotImplemented?
    {
      Some(NotImplemented("SyscallConn"))
    }

    /** ReadMsgIP: no bytes, no flags, no address. */
    function ReadMsgIP(size: nat, oobSize: nat): (r: (nat, nat, int, Option<IPAddr>, Option<NetError>))
      ensures r.0 == 0 && r.1 == 0 && r.2 == 0 && r.3.None? && r.4.Some? && r.4.value.NotImplemented?
    {
      (0, 0, 0, None, Some(NotImplemented("ReadMsgIP")))
    }

    /** ReadFrom: no bytes, no address. */
    function ReadFrom(size: nat): (r: (nat, Option<IPAddr>, Option<NetError>))
      ensures r.0 == 0 && r.1.None? && r.2.Some? && r.2.value.NotImplemented?
    {
      (0, None, Some(NotImplemented("ReadFrom")))
    }

    /** WriteToIP: nothing is written. */
    function WriteToIP(b: seq<Byte>, addr: Option<IPAddr>): (r: (nat, Option<NetError>))
      ensures r.0 == 0 && r.1.Some? && r.1.value.NotImplemented?
    {
      (0, Some(NotImplemented("WriteToIP")))
    }

    /** WriteTo: nothing is written. */
    function WriteTo(b: seq<Byte>, addr: Option<IPAddr>): (r: (nat, Option<NetError>))
      ensures r.0 == 0 && r.1.Some? && r.1.value.NotImplemented?
    {
      (0, Some(NotImplemented("WriteTo")))
    }
  }
}

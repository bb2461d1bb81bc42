/**
 * What TCPAddr and UDPAddr have in common: an IP, a port and a zone, their
 * text form, their netip.AddrPort form, and the wildcard test.
 */
module Endpoint {
  import opened Wrappers
  import opened GoStrings
  import opened Netip

  /** The host part of the text: the IP text, followed by "%zone" when there is a zone. */
  function HostText(ip: IP, zone: string): string {
    if zone != "" then IPEmptyString(ip) + "%" + zone else IPEmptyString(ip)
  }

  /**
   * The text of a non-nil endpoint, JoinHostPort(host, itoa(port)). For a zone
   * without brackets, SplitHostPort gives back the host text and the port text,
   * and that port text reads back as the port.
   */
  function HostPortString(ip: IP, port: int, zone: string): (r: string)
    ensures NoBrackets(zone) ==>
      SplitHostPort(r) == Ok((HostText(ip, zone), Itoa(port))) && Atoi(SplitHostPort(r).value.1) == Some(port)
  {
    var r := JoinHostPort(HostText(ip, zone), Itoa(port));
    AtoiItoa(port);
    assert NoBrackets(zone) ==> SplitHostPort(r) == Ok((HostText(ip, zone), Itoa(port))) by {
      if NoBrackets(zone) {
        IPTextNoBrackets(ip);
        ItoaHasNoBracketOrColon(port);
        SplitJoin(HostText(ip, zone), Itoa(port));
      }
    }
    r
  }

  /**
   * The netip.AddrPort of a non-nil endpoint: AddrFromSlice of the IP with the
   * zone attached (which only an IPv6 address keeps) and the port cut to 16 bits.
   */
  function ToAddrPort(ip: IP, port: int, zone: string): (r: AddrPort)
    ensures r.port == Truncate16(port) && (0 <= port < 0x1_0000 ==> r.port == port)
    ensures ip.Len() == 4 ==> r.addr == V4(ip.bytes)
    ensures ip.Len() == 16 ==> r.addr == V6(ip.bytes, zone)
    ensures ip.Len() != 4 && ip.Len() != 16 ==> r.addr == Invalid
  {
    AddrPort(AddrFromSlice(ip).0.WithZone(zone), Truncate16(port))
  }

  /** The zone an address carries ("" for IPv4). */
  function ZoneOf(a: Addr): string {
    if a.V6? then a.zone else ""
  }

  /** Storing a valid address as a byte slice and converting back loses nothing. */
  lemma ToAddrPortOfSlice(a: Addr, port: Uint16)
    requires !a.Invalid?
    ensures ToAddrPort(a.AsSlice(), port, ZoneOf(a)) == AddrPort(a, port)
  {
  }

  /** The port is cut to its low 16 bits: ports 65536 apart give the same AddrPort. */
  lemma PortWraps(ip: IP, port: int, zone: string)
    ensures ToAddrPort(ip, port + 0x1_0000, zone) == ToAddrPort(ip, port, zone)
    ensures ToAddrPort(ip, -1, zone).port == 0xFFFF
  {
  }

  /** isWildcard of a non-nil endpoint: its IP is nil or unspecified. */
  predicate Wildcard(ip: IP) {
    ip.NilIP? || IsUnspecified(ip)
  }

  /**
   * The dial functions test only IsUnspecified, which a nil IP does not pass,
   * so they accept the nil-IP wildcard that isWildcard reports.
   */
  lemma UnspecifiedIsNarrower(ip: IP)
    ensures IsUnspecified(ip) ==> Wildcard(ip)
    ensures Wildcard(NilIP) && !IsUnspecified(NilIP)
  {
  }
}

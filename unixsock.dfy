/**
 * Unix domain socket addresses. Unix sockets themselves are not implemented,
 * so only the address and its resolution are here.
 */
module UnixSock {
  import opened Wrappers
  import opened Netdever

  /** UnixAddr: a socket name and the network it belongs to. A *UnixAddr is an Option<UnixAddr>. */
  datatype UnixAddr = UnixAddr(name: string, net: string)

  predicate IsUnixNetwork(network: string) {
    network == "unix" || network == "unixgram" || network == "unixpacket"
  }

  /** UnixAddr.Network: the Net field (a nil receiver is not allowed). */
  function Network(a: UnixAddr): (r: string)
    ensures r == a.net
  {
    a.net
  }

  /** UnixAddr.String: "<nil>" for nil, otherwise the name. */
  function String(a: Option<UnixAddr>): (r: string)
    ensures a.None? ==> r == "<nil>"
    ensures a.Some? ==> r == a.value.name
  {
    if a.None? then "<nil>" else a.value.name
  }

  /** UnixAddr.isWildcard: nil or an empty name. */
  predicate IsWildcard(a: Option<UnixAddr>) {
    a.None? || a.value.name == ""
  }

  /** UnixAddr.opAddr: nil stays nil, anything else is itself. */
  function OpAddr(a: Option<UnixAddr>): (r: Option<UnixAddr>)
    ensures r.None? <==> a.None?
    ensures a.Some? ==> r == a
  {
    a
  }

  /** ResolveUnixAddr: the address as the name, for a Unix network only. */
  function ResolveUnixAddr(network: string, address: string): (r: Result<UnixAddr, NetError>)
    ensures r.Ok? <==> IsUnixNetwork(network)
    ensures r.Err? ==> r.error == UnknownNetwork(network)
  {
    if IsUnixNetwork(network) then Ok(UnixAddr(address, network)) else Err(UnknownNetwork(network))
  }

  /** The resolved address gives back the network and the address it was resolved from. */
  lemma ResolveRoundTrip(network: string, address: string)
    requires IsUnixNetwork(network)
    ensures Network(ResolveUnixAddr(network, address).value) == network
    ensures String(Some(ResolveUnixAddr(network, address).value)) == address
    ensures IsWildcard(Some(ResolveUnixAddr(network, address).value)) <==> address == ""
  {
  }
}

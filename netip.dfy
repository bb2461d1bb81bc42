/**
 * The address types the network code passes around: net.IP (a byte slice that
 * may be nil), netip.Addr and netip.AddrPort, with the few library operations
 * the core calls on them (AddrFromSlice, AsSlice, WithZone, IsUnspecified and
 * the text form used by ipEmptyString).
 */
module Netip {
  import opened GoStrings

  type Byte = x: int | 0 <= x < 0x100
  type Uint16 = x: int | 0 <= x < 0x1_0000
  type Bytes4 = s: seq<Byte> | |s| == 4 witness [0, 0, 0, 0]
  type Bytes16 = s: seq<Byte> | |s| == 16 witness [0, 0, 0, 0, 0, 0, 0, 0, 0, 0, 0, 0, 0, 0, 0, 0]

  /** Go's uint16(n) conversion: keeps the low 16 bits of n. */
  function Truncate16(n: int): Uint16 {
    n % 0x1_0000
  }

  /** net.IP: a byte slice, which may be nil. */
  datatype IP = NilIP | Slice(bytes: seq<Byte>) {
    function Len(): nat {
      if NilIP? then 0 else |bytes|
    }
  }

  const V4InV6Prefix: seq<Byte> := [0, 0, 0, 0, 0, 0, 0, 0, 0, 0, 0xff, 0xff]

  /**
   * IP.IsUnspecified: ip equals IPv4zero (0.0.0.0, in either its 4-byte or its
   * 16-byte IPv4-in-IPv6 form) or IPv6unspecified (::). A nil IP is not unspecified.
   */
  predicate IsUnspecified(ip: IP) {
    ip.Slice? &&
    (ip.bytes == [0, 0, 0, 0] ||
     ip.bytes == V4InV6Prefix + [0, 0, 0, 0] ||
     ip.bytes == [0, 0, 0, 0, 0, 0, 0, 0, 0, 0, 0, 0, 0, 0, 0, 0])
  }

  /** netip.Addr: the zero Addr, an IPv4 address, or an IPv6 address with a zone ("" for none). */
  datatype Addr = Invalid | V4(a4: Bytes4) | V6(a16: Bytes16, zone: string) {
    predicate Is4() { V4? }
    predicate Is6() { V6? }

    /** Addr.WithZone: only an IPv6 address carries a zone. */
    function WithZone(z: string): Addr {
      if V6? then V6(a16, z) else this
    }

    /** Addr.AsSlice: nil for the zero Addr, else the 4 or 16 address bytes. */
    function AsSlice(): IP {
      match this
      case Invalid => NilIP
      case V4(a) => Slice(a)
      case V6(a, _) => Slice(a)
    }
  }

  /** netip.AddrPort. */
  datatype AddrPort = AddrPort(addr: Addr, port: Uint16)

  /** The zero netip.AddrPort. */
  const ZeroAddrPort := AddrPort(Invalid, 0)

  /** netip.AddrFromSlice: a 4-byte slice is IPv4, a 16-byte slice IPv6 (no zone), else (zero, false). */
  function AddrFromSlice(ip: IP): (Addr, bool) {
    if ip.Slice? && |ip.bytes| == 4 then (V4(ip.bytes), true)
    else if ip.Slice? && |ip.bytes| == 16 then (V6(ip.bytes, ""), true)
    else (Invalid, false)
  }

  function HexDigit(d: nat): char
    requires d < 16
  {
    if d < 10 then DigitChar(d) else ('a' as int + d - 10) as char
  }

  /** Lower-case hexadecimal without leading zeros. */
  function Hex(n: nat): string
    decreases n
  {
    if n < 16 then [HexDigit(n)] else Hex(n / 16) + [HexDigit(n % 16)]
  }

  function HexBytes(b: seq<Byte>): string {
    if b == [] then "" else [HexDigit(b[0] / 16), HexDigit(b[0] % 16)] + HexBytes(b[1..])
  }

  function Dotted(b: Bytes4): string {
    Itoa(b[0]) + "." + Itoa(b[1]) + "." + Itoa(b[2]) + "." + Itoa(b[3])
  }

  function Groups(b: seq<Byte>): string
    requires |b| % 2 == 0
  {
    if b == [] then ""
    else if |b| == 2 then Hex(b[0] as int * 256 + b[1])
    else Hex(b[0] as int * 256 + b[1]) + ":" + Groups(b[2..])
  }

  /**
   * ipEmptyString: "" for an empty IP, else IP.String: dotted decimal for IPv4
   * (also in its IPv4-in-IPv6 form), and "?" followed by hex for any other
   * length. IPv6 is written as all eight hexadecimal groups; Go's IP.String
   * shortens the longest run of zero groups to "::" (RFC 5952), which this
   * helper does not do.
   */
  function IPEmptyString(ip: IP): string {
    if ip.Len() == 0 then ""
    else if |ip.bytes| == 4 then Dotted(ip.bytes)
    else if |ip.bytes| == 16 && ip.bytes[..12] == V4InV6Prefix then Dotted(ip.bytes[12..])
    else if |ip.bytes| == 16 then Groups(ip.bytes)
    else "?" + HexBytes(ip.bytes)
  }

  predicate NoBrackets(s: string) {
    '[' !in s && ']' !in s
  }

  lemma {:induction false} HexNoBrackets(n: nat)
    ensures NoBrackets(Hex(n))
    decreases n
  {
    if n >= 16 {
      HexNoBrackets(n / 16);
    }
  }

  lemma {:induction false} HexBytesNoBrackets(b: seq<Byte>)
    ensures NoBrackets(HexBytes(b))
    decreases |b|
  {
    if b != [] {
      HexBytesNoBrackets(b[1..]);
    }
  }

  lemma {:induction false} GroupsNoBrackets(b: seq<Byte>)
    requires |b| % 2 == 0
    ensures NoBrackets(Groups(b))
    decreases |b|
  {
    if b != [] {
      HexNoBrackets(b[0] as int * 256 + b[1]);
      if |b| > 2 {
        GroupsNoBrackets(b[2..]);
      }
    }
  }

  lemma DottedNoBrackets(b: Bytes4)
    ensures NoBrackets(Dotted(b))
  {
    ItoaHasNoBracketOrColon(b[0]);
    ItoaHasNoBracketOrColon(b[1]);
    ItoaHasNoBracketOrColon(b[2]);
    ItoaHasNoBracketOrColon(b[3]);
  }

  /** The text of an IP never holds a bracket, so JoinHostPort's brackets are the only ones. */
  lemma IPTextNoBrackets(ip: IP)
    ensures NoBrackets(IPEmptyString(ip))
  {
    if ip.Len() != 0 {
      if |ip.bytes| == 4 {
        DottedNoBrackets(ip.bytes);
      } else if |ip.bytes| == 16 && ip.bytes[..12] == V4InV6Prefix {
        DottedNoBrackets(ip.bytes[12..]);
      } else if |ip.bytes| == 16 {
        GroupsNoBrackets(ip.bytes);
      } else {
        HexBytesNoBrackets(ip.bytes);
      }
    }
  }
}

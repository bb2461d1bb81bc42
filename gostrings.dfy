/**
 * The string and number helpers of the Go standard library that the network
 * code relies on (strings.IndexByte, strconv.Atoi, itoa.Itoa,
 * net.SplitHostPort, net.JoinHostPort, ...). They are library code, so they
 * carry no row of their own; they are written out over ASCII text so that the
 * properties of the callers can be proved.
 */
module GoStrings {
  import opened Wrappers

  /** Index of the first c in s, or -1 (strings.IndexByte). */
  function IndexByte(s: string, c: char): (i: int)
    ensures -1 <= i < |s|
    ensures i >= 0 ==> s[i] == c && c !in s[..i]
    ensures i < 0 <==> c !in s
  {
    if |s| == 0 then -1
    else if s[0] == c then 0
    else
      var j := IndexByte(s[1..], c);
      assert s[1..][..if j < 0 then 0 else j] == s[1..if j < 0 then 1 else j + 1];
      assert s == [s[0]] + s[1..];
      if j < 0 then -1 else j + 1
  }

  /** Index of the last c in s, or -1 (bytealg.LastIndexByteString). */
  function LastIndexByte(s: string, c: char): (i: int)
    ensures -1 <= i < |s|
    ensures i >= 0 ==> s[i] == c && c !in s[i + 1..]
    ensures i < 0 <==> c !in s
  {
    if |s| == 0 then -1
    else if s[|s| - 1] == c then |s| - 1
    else
      var j := LastIndexByte(s[..|s| - 1], c);
      assert s == s[..|s| - 1] + [s[|s| - 1]];
      assert j >= 0 ==> s[j + 1..] == s[..|s| - 1][j + 1..] + [s[|s| - 1]];
      j
  }

  /** Index of the first character of s that occurs in chars, or -1 (strings.IndexAny). */
  function IndexAny(s: string, chars: string): (i: int)
    ensures -1 <= i < |s|
    ensures i >= 0 ==> s[i] in chars && forall k :: 0 <= k < i ==> s[k] !in chars
    ensures i < 0 ==> forall k :: 0 <= k < |s| ==> s[k] !in chars
  {
    if |s| == 0 then -1
    else if s[0] in chars then 0
    else
      var j := IndexAny(s[1..], chars);
      if j < 0 then -1 else j + 1
  }

  /** The number of leading characters of s that occur in cutset. */
  function LeadingIn(s: string, cutset: string): (n: nat)
    ensures n <= |s| && (n < |s| ==> s[n] !in cutset)
    ensures forall k :: 0 <= k < n ==> s[k] in cutset
  {
    if |s| > 0 && s[0] in cutset then
      var n := LeadingIn(s[1..], cutset);
      assert forall k :: 1 <= k < n + 1 ==> s[k] == s[1..][k - 1];
      n + 1
    else 0
  }

  /** s without its leading characters that occur in cutset (strings.TrimLeft). */
  function TrimLeft(s: string, cutset: string): (r: string)
    ensures |r| <= |s| && (r == [] || r[0] !in cutset)
  {
    s[LeadingIn(s, cutset)..]
  }

  /** A character that does not occur in s does not occur in what TrimLeft leaves. */
  lemma TrimLeftKeepsOut(s: string, cutset: string, c: char)
    requires c !in s
    ensures c !in TrimLeft(s, cutset)
  {
    var r := TrimLeft(s, cutset);
    forall k | 0 <= k < |r|
      ensures r[k] != c
    {
      assert r[k] == s[|s| - |r| + k];
    }
  }

  /** (s without suffix, true) when s ends with suffix, else (s, false) (strings.CutSuffix). */
  function CutSuffix(s: string, suffix: string): (r: (string, bool))
    ensures r.1 <==> |suffix| <= |s| && s[|s| - |suffix|..] == suffix
    ensures r.1 ==> r.0 + suffix == s
    ensures !r.1 ==> r.0 == s
  {
    if |suffix| <= |s| && s[|s| - |suffix|..] == suffix then
      assert s[..|s| - |suffix|] + s[|s| - |suffix|..] == s;
      (s[..|s| - |suffix|], true)
    else (s, false)
  }

  predicate IsDigit(c: char) { '0' <= c <= '9' }

  predicate AllDigits(s: string) { forall k :: 0 <= k < |s| ==> IsDigit(s[k]) }

  /** The value of a string of decimal digits. */
  function DecimalValue(s: string): nat
    requires AllDigits(s)
  {
    if |s| == 0 then 0
    else DecimalValue(s[..|s| - 1]) * 10 + (s[|s| - 1] as int - '0' as int)
  }

  function DigitChar(d: nat): char
    requires d < 10
  {
    ('0' as int + d) as char
  }

  /** Decimal digits of n, most significant first. */
  function Digits(n: nat): string
    decreases n
  {
    if n < 10 then [DigitChar(n)] else Digits(n / 10) + [DigitChar(n % 10)]
  }

  /** Decimal text of n with a leading '-' when negative (internal/itoa.Itoa). */
  function Itoa(n: int): string {
    if n < 0 then "-" + Digits(-n) else Digits(n)
  }

  /**
   * strconv.Atoi: an optional sign followed by one or more decimal digits.
   * The range check against the width of int is not modelled.
   */
  function Atoi(s: string): Option<int> {
    if |s| == 0 then None
    else if s[0] == '-' || s[0] == '+' then
      var ds := s[1..];
      if |ds| == 0 || !AllDigits(ds) then None
      else if s[0] == '-' then Some(-(DecimalValue(ds) as int))
      else Some(DecimalValue(ds))
    else if AllDigits(s) then Some(DecimalValue(s))
    else None
  }

  lemma {:induction false} DigitsValue(n: nat)
    ensures |Digits(n)| > 0 && AllDigits(Digits(n)) && DecimalValue(Digits(n)) == n
    decreases n
  {
    if n >= 10 {
      DigitsValue(n / 10);
      var s := Digits(n);
      assert s[..|s| - 1] == Digits(n / 10);
    }
  }

  /** Itoa's text is read back by Atoi. */
  lemma AtoiItoa(n: int)
    ensures Atoi(Itoa(n)) == Some(n)
  {
    var d: nat := if n < 0 then -n else n;
    var ds := Digits(d);
    DigitsValue(d);
    assert IsDigit(ds[0]);
    if n < 0 {
      var s := Itoa(n);
      assert s == "-" + ds;
      assert s[0] == '-' && s[1..] == ds;
    }
  }

  lemma ItoaHasNoBracketOrColon(n: int)
    ensures ':' !in Itoa(n) && '[' !in Itoa(n) && ']' !in Itoa(n)
  {
    var d := if n < 0 then -n else n;
    DigitsValue(d);
    assert forall k :: 0 <= k < |Digits(d)| ==> IsDigit(Digits(d)[k]);
  }

  /** Why SplitHostPort rejects its input (the Err of net.AddrError). */
  datatype SplitError =
    | MissingPort
    | TooManyColons
    | MissingRBracket
    | UnexpectedLBracket
    | UnexpectedRBracket

  /** net.SplitHostPort: "host:port", "[host]:port" or "[host%zone]:port" into host and port. */
  function SplitHostPort(hostport: string): Result<(string, string), SplitError> {
    var i := LastIndexByte(hostport, ':');
    if i < 0 then Err(MissingPort)
    else
      var split: Result<(string, nat, nat), SplitError> :=
        if hostport[0] == '[' then
          var end := IndexByte(hostport, ']');
          if end < 0 then Err(MissingRBracket)
          else if end + 1 == |hostport| then Err(MissingPort)
          else if end + 1 == i then Ok((hostport[1..end], 1, end + 1))
          else if hostport[end + 1] == ':' then Err(TooManyColons)
          else Err(MissingPort)
        else
          var host := hostport[..i];
          if IndexByte(host, ':') >= 0 then Err(TooManyColons) else Ok((host, 0, 0));
      match split
      case Err(e) => Err(e)
      case Ok(t) =>
        var host, j, k := t.0, t.1, t.2;
        if IndexByte(hostport[j..], '[') >= 0 then Err(UnexpectedLBracket)
        else if IndexByte(hostport[k..], ']') >= 0 then Err(UnexpectedRBracket)
        else Ok((host, hostport[i + 1..]))
  }

  /** net.JoinHostPort: brackets the host when it contains a colon. */
  function JoinHostPort(host: string, port: string): string {
    if ':' in host then "[" + host + "]:" + port else host + ":" + port
  }

  lemma IndexByteAt(s: string, c: char, k: int)
    requires 0 <= k < |s| && s[k] == c && c !in s[..k]
    ensures IndexByte(s, c) == k
  {
    var i := IndexByte(s, c);
    assert s[k] in s;
    assert forall j :: 0 <= j < k ==> s[..k][j] == s[j];
    assert forall j :: 0 <= j < i ==> s[..i][j] == s[j];
  }

  lemma LastIndexByteAt(s: string, c: char, k: int)
    requires 0 <= k < |s| && s[k] == c && c !in s[k + 1..]
    ensures LastIndexByte(s, c) == k
  {
    var i := LastIndexByte(s, c);
    assert s[k] in s;
    assert forall j :: k < j < |s| ==> s[k + 1..][j - k - 1] == s[j];
    assert forall j :: i < j < |s| ==> s[i + 1..][j - i - 1] == s[j];
  }

  /** SplitHostPort undoes JoinHostPort for hosts and ports without brackets. */
  lemma SplitJoin(host: string, port: string)
    requires '[' !in host && ']' !in host
    requires ':' !in port && '[' !in port && ']' !in port
    ensures SplitHostPort(JoinHostPort(host, port)) == Ok((host, port))
  {
    if ':' in host {
      SplitJoinBracketed(host, port);
    } else {
      SplitJoinPlain(host, port);
    }
  }

  /** Where the brackets and the colon of "[host]:port" are. */
  lemma BracketedParts(host: string, port: string, hp: string)
    requires '[' !in host && ']' !in host
    requires ':' !in port && '[' !in port && ']' !in port
    requires hp == "[" + host + "]:" + port
    ensures |hp| == |host| + 3 + |port| && hp[0] == '['
    ensures LastIndexByte(hp, ':') == |host| + 2 && IndexByte(hp, ']') == |host| + 1
    ensures hp[1..|host| + 1] == host && hp[|host| + 3..] == port
    ensures IndexByte(hp[1..], '[') < 0 && IndexByte(hp[|host| + 2..], ']') < 0
  {
    BracketedColon(host, port, hp);
    BracketedClose(host, port, hp);
    BracketedChars(host, port, hp);
    var t := hp[1..];
    forall k | 0 <= k < |t|
      ensures t[k] != '['
    {
      assert t[k] == hp[k + 1];
      if k < |host| {
        assert host[k] in host;
      } else if k >= |host| + 2 {
        assert port[k - |host| - 2] in port;
      }
    }
    var u := hp[|host| + 2..];
    forall k | 0 <= k < |u|
      ensures u[k] != ']'
    {
      assert u[k] == hp[|host| + 2 + k];
      if k > 0 {
        assert port[k - 1] in port;
      }
    }
  }

  lemma BracketedChars(host: string, port: string, hp: string)
    requires hp == "[" + host + "]:" + port
    ensures |hp| == |host| + 3 + |port| && hp[0] == '[' && hp[|host| + 1] == ']' && hp[|host| + 2] == ':'
    ensures forall k :: 0 <= k < |host| ==> hp[k + 1] == host[k]
    ensures forall k :: 0 <= k < |port| ==> hp[|host| + 3 + k] == port[k]
  {
  }

  lemma BracketedColon(host: string, port: string, hp: string)
    requires ':' !in port
    requires hp == "[" + host + "]:" + port
    ensures LastIndexByte(hp, ':') == |host| + 2 && hp[|host| + 3..] == port
  {
    var e := |host| + 1;
    assert hp[e + 1] == ':';
    assert hp[e + 2..] == port;
    LastIndexByteAt(hp, ':', e + 1);
  }

  lemma BracketedClose(host: string, port: string, hp: string)
    requires ']' !in host
    requires hp == "[" + host + "]:" + port
    ensures IndexByte(hp, ']') == |host| + 1 && hp[1..|host| + 1] == host
  {
    var e := |host| + 1;
    assert hp[..e] == "[" + host;
    assert hp[e] == ']';
    IndexByteAt(hp, ']', e);
    assert hp[1..e] == host;
  }

  lemma SplitJoinBracketed(host: string, port: string)
    requires ':' in host && '[' !in host && ']' !in host
    requires ':' !in port && '[' !in port && ']' !in port
    ensures SplitHostPort(JoinHostPort(host, port)) == Ok((host, port))
  {
    var hp := "[" + host + "]:" + port;
    assert JoinHostPort(host, port) == hp;
    BracketedParts(host, port, hp);
    SplitBracketed(hp, host, port);
  }

  /** SplitHostPort of a text with the shape BracketedParts describes. */
  lemma SplitBracketed(hp: string, host: string, port: string)
    requires |hp| == |host| + 3 + |port| && hp[0] == '['
    requires LastIndexByte(hp, ':') == |host| + 2 && IndexByte(hp, ']') == |host| + 1
    requires hp[1..|host| + 1] == host && hp[|host| + 3..] == port
    requires IndexByte(hp[1..], '[') < 0 && IndexByte(hp[|host| + 2..], ']') < 0
    ensures SplitHostPort(hp) == Ok((host, port))
  {
  }

  lemma SplitJoinPlain(host: string, port: string)
    requires ':' !in host && '[' !in host && ']' !in host
    requires ':' !in port && '[' !in port && ']' !in port
    ensures SplitHostPort(JoinHostPort(host, port)) == Ok((host, port))
  {
    var hp := host + ":" + port;
    assert JoinHostPort(host, port) == hp;
    var i := |host|;
    assert hp[i] == ':' && hp[i + 1..] == port;
    LastIndexByteAt(hp, ':', i);
    assert hp[..i] == host;
    assert hp[0] != '[' by {
      if host != [] { assert hp[0] == host[0]; }
    }
    assert '[' !in hp && ']' !in hp;
    assert hp[0..] == hp;
  }
}

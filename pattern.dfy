/**
 * The route pattern parser of the http package: "[METHOD] [HOST]/[PATH]",
 * where each path segment is a literal, a wildcard "{name}", a final
 * "{name...}" or a final "{$}". `Parse` states what parsePattern computes and
 * `ParsePattern` is the parser itself, with its loop over the path.
 */
module HttpPattern {
  import opened Wrappers
  import opened GoStrings

  /**
   * segment: a literal (wild false; s is "/" for "{$}"), a wildcard matching
   * one path segment (wild), or one matching the rest of the path (wild and
   * multi; s is "" for the anonymous wildcard of a trailing slash).
   */
  datatype Segment = Segment(s: string, wild: bool, multi: bool)

  /** pattern: the original text, its method, host and path segments. */
  datatype Pattern = Pattern(str: string, httpMethod: string, host: string, segments: seq<Segment>) {
    /** pattern.String: the text the pattern was parsed from. */
    function String(): (r: string)
      ensures r == str
    {
      str
    }

    /** pattern.lastSegment (the pattern must have a segment). */
    function LastSegment(): (r: Segment)
      requires |segments| > 0
      ensures r in segments && r == segments[|segments| - 1]
    {
      segments[|segments| - 1]
    }
  }

  /** The reasons parsePattern gives, without their text. */
  datatype ErrorKind =
    | InvalidMethod(httpMethod: string)
    | MissingSlash               // "host/path missing /"
    | HostHasBrace               // "host contains '{' (missing initial '/'?)"
    | UncleanPath                // "non-CONNECT pattern with unclean path can never match"
    | BadWildcardStart           // "bad wildcard segment (must start with '{')"
    | BadWildcardEnd             // "bad wildcard segment (must end with '}')"
    | DollarNotAtEnd             // "{$} not at end"
    | MultiNotAtEnd              // "{...} wildcard not at end"
    | EmptyWildcard
    | BadWildcardName(name: string)
    | DuplicateWildcard(name: string)

  /** "empty pattern", or any other error prefixed with "at offset N". */
  datatype PatternError = EmptyPattern | AtOffset(off: int, kind: ErrorKind)

  /** The token characters of section 3.2.6 of RFC 7230. */
  predicate IsTokenChar(c: char) {
    ('a' <= c <= 'z') || ('A' <= c <= 'Z') || ('0' <= c <= '9') || c in "!#$%&'*+-.^_`|~"
  }

  /** validMethod: a non-empty token. */
  predicate ValidMethod(httpMethod: string) {
    |httpMethod| > 0 && forall k :: 0 <= k < |httpMethod| ==> IsTokenChar(httpMethod[k])
  }

  /**
   * The segments of p, the text after a '/', as cleanPath leaves them: none
   * is "." or "..", and only the last may be empty (a trailing '/').
   */
  predicate CleanSegments(p: string)
    decreases |p|
  {
    var i := IndexByte(p, '/');
    if i < 0 then p != "." && p != ".."
    else
      var seg := p[..i];
      seg != "" && seg != "." && seg != ".." && CleanSegments(p[i + 1..])
  }

  /** The paths cleanPath leaves as they are: a leading '/' and clean segments after it. */
  predicate IsCleanPath(path: string) {
    |path| > 0 && path[0] == '/' && CleanSegments(path[1..])
  }

  predicate IsLetter(c: char) {
    ('a' <= c <= 'z') || ('A' <= c <= 'Z')
  }

  /** isValidWildcardName: an identifier, a letter or '_' followed by letters, '_' and digits. */
  predicate IsValidWildcardName(s: string) {
    s != "" && forall i :: 0 <= i < |s| ==> IsLetter(s[i]) || s[i] == '_' || (i != 0 && IsDigit(s[i]))
  }

  /** A valid wildcard name holds none of the characters the pattern syntax gives a meaning. */
  lemma ValidNameChars(s: string)
    requires IsValidWildcardName(s)
    ensures !IsDigit(s[0])
    ensures '/' !in s && '{' !in s && '}' !in s && '.' !in s && '$' !in s
  {
    assert forall c :: c in s ==> exists i :: 0 <= i < |s| && s[i] == c;
  }

  predicate IsHex(c: char) {
    ('0' <= c <= '9') || ('a' <= c <= 'f') || ('A' <= c <= 'F')
  }

  function HexValue(c: char): (v: nat)
    requires IsHex(c)
    ensures v < 16
  {
    if '0' <= c <= '9' then c as int - '0' as int
    else if 'a' <= c <= 'f' then c as int - 'a' as int + 10
    else c as int - 'A' as int + 10
  }

  /**
   * url.PathUnescape over characters taken as bytes: each "%XX" becomes the
   * byte XX; a '%' not followed by two hex digits makes the whole text invalid.
   */
  function Unescape(s: string): (r: Option<string>)
    ensures '%' !in s ==> r == Some(s)
    decreases |s|
  {
    if s == [] then Some([])
    else if s[0] == '%' then
      if |s| >= 3 && IsHex(s[1]) && IsHex(s[2]) then
        match Unescape(s[3..])
        case None => None
        case Some(t) => Some([(HexValue(s[1]) * 16 + HexValue(s[2])) as char] + t)
      else None
    else
      assert '%' !in s ==> '%' !in s[1..] && s == [s[0]] + s[1..];
      match Unescape(s[1..])
      case None => None
      case Some(t) => Some([s[0]] + t)
  }

  /** The escaping Unescape undoes: each '%' written as "%25". */
  function EscapePercent(t: string): string {
    if t == [] then [] else (if t[0] == '%' then "%25" else [t[0]]) + EscapePercent(t[1..])
  }

  lemma {:induction false} UnescapeEscape(t: string)
    ensures Unescape(EscapePercent(t)) == Some(t)
    decreases |t|
  {
    if t != [] {
      UnescapeEscape(t[1..]);
      var rest := EscapePercent(t[1..]);
      if t[0] == '%' {
        var e := "%25" + rest;
        assert EscapePercent(t) == e && e[3..] == rest;
        assert HexValue('2') * 16 + HexValue('5') == 0x25;
        assert t == ['%'] + t[1..];
      } else {
        var e := [t[0]] + rest;
        assert EscapePercent(t) == e && e[1..] == rest;
        assert t == [t[0]] + t[1..];
      }
    }
  }

  /** pathUnescape: the unescaped text, or the text itself when its escapes are invalid. */
  function PathUnescape(path: string): (r: string)
    ensures Unescape(path).None? ==> r == path
    ensures Unescape(path).Some? ==> r == Unescape(path).value
  {
    match Unescape(path)
    case None => path
    case Some(u) => u
  }

  /** A literal written with its '%' escaped comes back unchanged. */
  lemma PathUnescapeEscaped(t: string)
    ensures PathUnescape(EscapePercent(t)) == t
  {
    UnescapeEscape(t);
  }

  /** What reading one path segment leads to: the end of the parse, or the loop state for the next segment. */
  datatype Step =
    | Done(result: Result<seq<Segment>, PatternError>)
    | Next(rest: string, seen: set<string>, segs: seq<Segment>)

  /** What the text of one path segment denotes. */
  datatype Piece = Lit(text: string) | EndMark | Wild(name: string, multi: bool)

  /**
   * The text of one path segment: a literal (unescaped) when it holds no '{';
   * otherwise it must be "{...}" around "$" (only at the end), or around a
   * name, valid and not seen before, with a "..." suffix only at the end.
   */
  function ParsePiece(seg: string, atEnd: bool, seen: set<string>): (r: Result<Piece, ErrorKind>)
    ensures r.Ok? && r.value.Lit? ==> '{' !in seg && r.value.text == PathUnescape(seg)
    ensures r.Ok? && r.value.EndMark? ==> atEnd && seg == "{$}"
    ensures r.Ok? && r.value.Wild? ==>
      IsValidWildcardName(r.value.name) && r.value.name !in seen && (r.value.multi ==> atEnd) &&
      seg == "{" + r.value.name + (if r.value.multi then "..." else "") + "}"
    ensures r.Err? ==> '{' in seg
  {
    var b := IndexByte(seg, '{');
    if b < 0 then Ok(Lit(PathUnescape(seg)))
    else if b != 0 then Err(BadWildcardStart)
    else if seg[|seg| - 1] != '}' then Err(BadWildcardEnd)
    else
      var inner := seg[1..|seg| - 1];
      assert seg == "{" + inner + "}";
      if inner == "$" then
        if !atEnd then Err(DollarNotAtEnd) else Ok(EndMark)
      else
        var cut := CutSuffix(inner, "...");
        var name, multi := cut.0, cut.1;
        if multi && !atEnd then Err(MultiNotAtEnd)
        else if name == "" then Err(EmptyWildcard)
        else if !IsValidWildcardName(name) then Err(BadWildcardName(name))
        else if name in seen then Err(DuplicateWildcard(name))
        else Ok(Wild(name, multi))
  }

  /**
   * One turn of parsePattern's path loop, for a `rest` starting with '/':
   * a trailing slash, or the segment up to the next '/'. Errors carry the
   * offset of the segment's text.
   */
  function SegmentStep(s: string, rest: string, seen: set<string>, segs: seq<Segment>): (st: Step)
    requires |rest| > 0 && rest[0] == '/' && |rest| <= |s|
    ensures st.Done? && st.result.Err? ==> st.result.error.AtOffset? && |s| - |rest| < st.result.error.off <= |s|
    ensures st.Done? && st.result.Ok? ==>
      (rest == "/" && st.result.value == segs + [Segment("", true, true)]) ||
      (rest[|rest| - 1] == '}' && st.result.value == segs + [Segment("/", false, false)])
    ensures st.Next? ==>
      (|st.rest| == 0 || st.rest[0] == '/') && |st.rest| < |rest| && EndsLike(st.rest, rest) &&
      Extends(seen, segs, st.seen, st.segs, st.rest)
    ensures st.Next? && rest[|rest| - 1] == '/' ==> |st.rest| > 0
  {
    var rest1 := rest[1..];
    var off := |s| - |rest1|;
    if |rest1| == 0 then Done(Ok(segs + [Segment("", true, true)]))
    else
      var i := IndexByte(rest1, '/');
      var end := if i < 0 then |rest1| else i;
      var seg := rest1[..end];
      var rest2 := rest1[end..];
      assert EndsLike(rest2, rest);
      assert rest[|rest| - 1] == '/' ==> i >= 0;
      var piece := ParsePiece(seg, |rest2| == 0, seen);
      assert piece.Ok? && piece.value.EndMark? ==> rest[|rest| - 1] == seg[|seg| - 1];
      PieceStep(off, piece, rest2, seen, segs)
  }

  /**
   * segs2 is segs with one more segment: a literal, or a wildcard with a valid
   * name not in seen, which seen2 adds, and which is multi only when nothing
   * (rest2) follows it.
   */
  predicate Extends(seen: set<string>, segs: seq<Segment>, seen2: set<string>, segs2: seq<Segment>, rest2: string) {
    |segs2| == |segs| + 1 && segs2 == segs + [segs2[|segs|]] &&
    var g := segs2[|segs|];
    (!g.wild && !g.multi && seen2 == seen) ||
    (g.wild && IsValidWildcardName(g.s) && g.s !in seen && seen2 == seen + {g.s} && (g.multi ==> |rest2| == 0))
  }

  /** The step for a segment whose text denotes `piece`, with `rest2` after it. */
  function PieceStep(off: int, piece: Result<Piece, ErrorKind>, rest2: string, seen: set<string>, segs: seq<Segment>): (st: Step)
    requires piece.Ok? && piece.value.Wild? ==>
      IsValidWildcardName(piece.value.name) && piece.value.name !in seen && (piece.value.multi ==> |rest2| == 0)
    ensures st.Done? ==>
      (piece.Err? && st.result == Err(AtOffset(off, piece.error))) ||
      (piece == Ok(EndMark) && st.result == Ok(segs + [Segment("/", false, false)]))
    ensures st.Next? ==> st.rest == rest2 && Extends(seen, segs, st.seen, st.segs, rest2)
  {
    match piece
    case Err(kind) => Done(Err(AtOffset(off, kind)))
    case Ok(Lit(t)) => Next(rest2, seen, segs + [Segment(t, false, false)])
    case Ok(EndMark) => Done(Ok(segs + [Segment("/", false, false)]))
    case Ok(Wild(name, multi)) => Next(rest2, seen + {name}, segs + [Segment(name, true, multi)])
  }

  /**
   * parsePattern's path loop from `rest` on (empty, or starting with '/'),
   * with the wildcard names seen so far and the segments built so far.
   */
  function ParseSegments(s: string, rest: string, seen: set<string>, segs: seq<Segment>): (r: Result<seq<Segment>, PatternError>)
    requires |rest| == 0 || rest[0] == '/'
    requires |rest| <= |s|
    ensures r.Err? ==> r.error.AtOffset? && |s| - |rest| < r.error.off <= |s|
    decreases |rest|
  {
    if |rest| == 0 then Ok(segs)
    else
      match SegmentStep(s, rest, seen, segs)
      case Done(r) => r
      case Next(rest2, seen2, segs2) => ParseSegments(s, rest2, seen2, segs2)
  }

  /** ParseSegments takes one step of the loop at a time. */
  lemma ParseSegmentsStep(s: string, rest: string, seen: set<string>, segs: seq<Segment>)
    requires |rest| > 0 && rest[0] == '/' && |rest| <= |s|
    ensures var st := SegmentStep(s, rest, seen, segs);
      ParseSegments(s, rest, seen, segs) == if st.Done? then st.result else ParseSegments(s, st.rest, st.seen, st.segs)
  {
  }

  /** The text before the path: the method, the host, and the path itself. */
  datatype Parts = Parts(httpMethod: string, host: string, path: string)

  /** t is no longer than s and ends with the same character. */
  predicate EndsLike(t: string, s: string) {
    |t| <= |s| && (|t| > 0 ==> t[|t| - 1] == s[|s| - 1])
  }

  /** Neither a space nor a tab occurs in m. */
  predicate NoBlank(m: string) {
    forall k :: 0 <= k < |m| ==> m[k] != ' ' && m[k] != '\t'
  }

  /**
   * The method split of parsePattern: the text before the first space or tab
   * and the text after the blanks that follow it, or "" and s itself when s
   * has no blank.
   */
  function SplitMethod(s: string): (r: (string, string, bool))
    ensures var m, rest, found := r.0, r.1, r.2;
      EndsLike(rest, s) && NoBlank(m) &&
      (found ==> |m| + 1 + |rest| <= |s|) &&
      (m != "" ==> |m| < |s| && m <= s && (s[|m|] == ' ' || s[|m|] == '\t')) &&
      (!found ==> m == "" && rest == s && NoBlank(s))
  {
    var i := IndexAny(s, " \t");
    if i >= 0 then
      var x := s[i + 1..];
      var rest := TrimLeft(x, " \t");
      assert |rest| > 0 ==> rest[|rest| - 1] == x[|x| - 1];
      (s[..i], rest, true)
    else ("", s, false)
  }

  /**
   * When s has a blank, the method is the text before the first one, and the
   * rest is the text after that blank with its leading blanks trimmed.
   */
  lemma SplitMethodBlank(s: string)
    ensures var m, rest, found := SplitMethod(s).0, SplitMethod(s).1, SplitMethod(s).2;
      found ==> |m| < |s| && m == s[..|m|] && (s[|m|] == ' ' || s[|m|] == '\t') &&
                rest == TrimLeft(s[|m| + 1..], " \t")
  {
  }

  /**
   * The host and path of parsePattern, from the text after the method: the
   * host is the text before the first '/' and holds no '{'; with a method
   * other than CONNECT the path must be clean. `off` is where `rest` is
   * counted from.
   */
  function HostPath(s: string, m: string, rest: string, off: nat): (r: Result<Parts, PatternError>)
    requires off + |rest| <= |s| && EndsLike(rest, s)
    ensures r.Err? ==> r.error.AtOffset? && off <= r.error.off <= |s|
    ensures '/' !in rest <==> r == Err(AtOffset(off, MissingSlash))
    ensures r.Ok? ==>
      r.value.host == rest[..IndexByte(rest, '/')] && r.value.path == rest[IndexByte(rest, '/')..] &&
      '/' !in r.value.host
    ensures r.Ok? ==>
      r.value.httpMethod == m && '{' !in r.value.host &&
      0 < |r.value.path| && r.value.path[0] == '/' && EndsLike(r.value.path, s)
    ensures r.Ok? && m != "" && m != "CONNECT" ==> IsCleanPath(r.value.path)
  {
    var j := IndexByte(rest, '/');
    if j < 0 then Err(AtOffset(off, MissingSlash))
    else
      HostCheck(s, m, rest[..j], rest[j..], off, j)
  }

  /** The checks on the host and on the path, which starts at offset off + |host|. */
  function HostCheck(s: string, m: string, host: string, path: string, off: nat, j: nat): (r: Result<Parts, PatternError>)
    requires j == |host| && off + |host| + |path| <= |s| && EndsLike(path, s) && |path| > 0 && path[0] == '/'
    ensures r.Err? ==> r.error.AtOffset? && off <= r.error.off <= |s|
    ensures r.Ok? ==> r == Ok(Parts(m, host, path)) && '{' !in host
    ensures r.Ok? && m != "" && m != "CONNECT" ==> IsCleanPath(path)
    ensures '{' in host ==> r == Err(AtOffset(off + IndexByte(host, '{'), HostHasBrace))
    ensures '{' !in host && m != "" && m != "CONNECT" && !IsCleanPath(path) ==> r == Err(AtOffset(off + j, UncleanPath))
    ensures '{' !in host && (m == "" || m == "CONNECT" || IsCleanPath(path)) ==> r.Ok?
  {
    var k := IndexByte(host, '{');
    if k >= 0 then Err(AtOffset(off + k, HostHasBrace))
    else if m != "" && m != "CONNECT" && !IsCleanPath(path) then Err(AtOffset(off + j, UncleanPath))
    else Ok(Parts(m, host, path))
  }

  /**
   * The first part of parsePattern: the method, which must be valid when not
   * empty, then the host and path. Offsets count the method and one
   * separator, not the blanks trimmed after it.
   */
  function SplitPattern(s: string): (r: Result<Parts, PatternError>)
    ensures r.Err? ==> r.error.AtOffset? && 0 <= r.error.off <= |s|
    ensures r.Ok? ==>
      0 < |r.value.path| && r.value.path[0] == '/' && EndsLike(r.value.path, s) && '{' !in r.value.host
    ensures r.Ok? && r.value.httpMethod != "" && r.value.httpMethod != "CONNECT" ==> IsCleanPath(r.value.path)
  {
    var sm := SplitMethod(s);
    var m, rest, found := sm.0, sm.1, sm.2;
    if m != "" && !ValidMethod(m) then Err(AtOffset(0, InvalidMethod(m)))
    else HostPath(s, m, rest, if found then |m| + 1 else 0)
  }

  /**
   * The method of a split pattern is empty or a valid method, holds no blank,
   * and is the text before the first blank of s.
   */
  lemma SplitPatternMethod(s: string)
    requires SplitPattern(s).Ok?
    ensures var m := SplitPattern(s).value.httpMethod;
      (m == "" || ValidMethod(m)) && NoBlank(m) &&
      (m != "" ==> |m| < |s| && m <= s && (s[|m|] == ' ' || s[|m|] == '\t'))
  {
    var sm := SplitMethod(s);
    assert SplitPattern(s).value.httpMethod == sm.0;
  }

  /**
   * What parsePattern returns for s: "empty pattern" for the empty text only,
   * errors otherwise at an offset within s, and a pattern that keeps s as its text.
   */
  function Parse(s: string): (r: Result<Pattern, PatternError>)
    ensures r == Err(EmptyPattern) <==> |s| == 0
    ensures r.Err? && r.error.AtOffset? ==> 0 <= r.error.off <= |s|
    ensures r.Ok? ==> r.value.str == s && '{' !in r.value.host
  {
    if |s| == 0 then Err(EmptyPattern)
    else
      match SplitPattern(s)
      case Err(e) => Err(e)
      case Ok(parts) =>
        match ParseSegments(s, parts.path, {}, [])
        case Err(e) => Err(e)
        case Ok(segs) => Ok(Pattern(s, parts.httpMethod, parts.host, segs))
  }

  /** Only a last segment is multi, and then it is a wildcard. */
  predicate MultiLast(segs: seq<Segment>) {
    forall i :: 0 <= i < |segs| && segs[i].multi ==> i == |segs| - 1 && segs[i].wild
  }

  /** Every named wildcard has a valid name; the only unnamed one is the trailing-slash wildcard. */
  predicate NamesValid(segs: seq<Segment>) {
    forall i :: 0 <= i < |segs| && segs[i].wild ==>
      IsValidWildcardName(segs[i].s) || (segs[i].s == "" && segs[i].multi)
  }

  /** No two wildcards share a name. */
  predicate NamesDistinct(segs: seq<Segment>) {
    forall i, j :: 0 <= i < j < |segs| && segs[i].wild && segs[j].wild && segs[i].s != "" ==> segs[i].s != segs[j].s
  }

  predicate WellFormed(segs: seq<Segment>) {
    MultiLast(segs) && NamesValid(segs) && NamesDistinct(segs)
  }

  /** The loop state: the segments so far are well formed, their names are recorded, and a multi one ended the path. */
  predicate LoopState(rest: string, seen: set<string>, segs: seq<Segment>) {
    WellFormed(segs) &&
    (forall i :: 0 <= i < |segs| && segs[i].wild ==> segs[i].s in seen) &&
    (forall i :: 0 <= i < |segs| && segs[i].multi ==> |rest| == 0)
  }

  /** One turn of the path loop keeps the loop state. */
  lemma StepKeepsLoopState(s: string, rest: string, seen: set<string>, segs: seq<Segment>)
    requires |rest| > 0 && rest[0] == '/' && |rest| <= |s|
    requires LoopState(rest, seen, segs)
    ensures var st := SegmentStep(s, rest, seen, segs);
      (st.Next? ==> LoopState(st.rest, st.seen, st.segs)) &&
      (st.Done? && st.result.Ok? ==> WellFormed(st.result.value))
  {
    var st := SegmentStep(s, rest, seen, segs);
    if st.Next? {
      ExtendKeepsLoopState(rest, seen, segs, st.rest, st.seen, st.segs);
    } else if st.result.Ok? {
      FinalKeepsWellFormed(rest, seen, segs, st.result.value[|segs|]);
    }
  }

  lemma ExtendKeepsLoopState(rest: string, seen: set<string>, segs: seq<Segment>, rest2: string, seen2: set<string>, segs2: seq<Segment>)
    requires |rest| > 0 && LoopState(rest, seen, segs)
    requires Extends(seen, segs, seen2, segs2, rest2)
    ensures LoopState(rest2, seen2, segs2)
  {
    assert forall i :: 0 <= i < |segs| ==> segs2[i] == segs[i];
    forall i, j | 0 <= i < j < |segs2| && segs2[i].wild && segs2[j].wild && segs2[i].s != ""
      ensures segs2[i].s != segs2[j].s
    {
      if j == |segs| {
        assert segs[i].s in seen;
      }
    }
  }

  lemma FinalKeepsWellFormed(rest: string, seen: set<string>, segs: seq<Segment>, g: Segment)
    requires |rest| > 0 && LoopState(rest, seen, segs)
    requires g == Segment("", true, true) || g == Segment("/", false, false)
    ensures WellFormed(segs + [g])
  {
    var segs2 := segs + [g];
    assert forall i :: 0 <= i < |segs| ==> segs2[i] == segs[i];
    forall i, j | 0 <= i < j < |segs2| && segs2[i].wild && segs2[j].wild && segs2[i].s != ""
      ensures segs2[i].s != segs2[j].s
    {
      if j == |segs| {
        assert IsValidWildcardName(segs[i].s);
      }
    }
  }

  lemma {:induction false} ParseSegmentsWellFormed(s: string, rest: string, seen: set<string>, segs: seq<Segment>)
    requires |rest| == 0 || rest[0] == '/'
    requires |rest| <= |s|
    requires LoopState(rest, seen, segs)
    ensures ParseSegments(s, rest, seen, segs).Ok? ==> WellFormed(ParseSegments(s, rest, seen, segs).value)
    decreases |rest|
  {
    if |rest| > 0 {
      StepKeepsLoopState(s, rest, seen, segs);
      match SegmentStep(s, rest, seen, segs)
      case Done(r) =>
      case Next(rest2, seen2, segs2) =>
        ParseSegmentsWellFormed(s, rest2, seen2, segs2);
    }
  }

  /**
   * A parsed pattern's segments: only the last can be multi, every wildcard
   * name is valid, and no two wildcards share a name.
   */
  lemma ParseWellFormed(s: string)
    requires Parse(s).Ok?
    ensures WellFormed(Parse(s).value.segments)
  {
    ParseSegmentsWellFormed(s, SplitPattern(s).value.path, {}, []);
  }

  /** The segments end with the anonymous multi wildcard of a trailing slash. */
  predicate EndsInTrailing(segs: seq<Segment>) {
    |segs| > 0 && segs[|segs| - 1] == Segment("", true, true)
  }

  lemma {:induction false} TrailingSlashSegments(s: string, rest: string, seen: set<string>, segs: seq<Segment>)
    requires |rest| > 0 && rest[0] == '/' && |rest| <= |s| && rest[|rest| - 1] == '/'
    ensures ParseSegments(s, rest, seen, segs).Ok? ==> EndsInTrailing(ParseSegments(s, rest, seen, segs).value)
    decreases |rest|
  {
    var st := SegmentStep(s, rest, seen, segs);
    if st.Done? {
      assert ParseSegments(s, rest, seen, segs) == st.result;
      if st.result.Ok? {
        assert rest == "/";
        var out := st.result.value;
        assert out == segs + [Segment("", true, true)];
        assert EndsInTrailing(out);
      }
    } else {
      assert ParseSegments(s, rest, seen, segs) == ParseSegments(s, st.rest, st.seen, st.segs);
      assert st.rest[|st.rest| - 1] == rest[|rest| - 1];
      TrailingSlashSegments(s, st.rest, st.seen, st.segs);
    }
  }

  /** A pattern ending in '/' ends with the anonymous multi wildcard. */
  lemma TrailingSlash(s: string)
    requires Parse(s).Ok? && s[|s| - 1] == '/'
    ensures EndsInTrailing(Parse(s).value.segments)
  {
    var path := SplitPattern(s).value.path;
    assert path[|path| - 1] == s[|s| - 1];
    TrailingSlashSegments(s, path, {}, []);
  }

  /** A valid method holds no blank. */
  lemma ValidMethodNoBlank(m: string)
    requires ValidMethod(m)
    ensures NoBlank(m)
  {
    forall k | 0 <= k < |m|
      ensures m[k] != ' ' && m[k] != '\t'
    {
      assert IsTokenChar(m[k]);
    }
  }

  /** Parse, once the text is not empty: SplitPattern's error, or the path loop's outcome. */
  lemma ParseParts(s: string)
    requires |s| > 0
    ensures SplitPattern(s).Err? ==> Parse(s) == Err(SplitPattern(s).error)
    ensures SplitPattern(s).Ok? && ParseSegments(s, SplitPattern(s).value.path, {}, []).Err? ==>
      Parse(s) == Err(ParseSegments(s, SplitPattern(s).value.path, {}, []).error)
  {
  }

  /** SplitPattern, once the method is accepted: HostPath of what follows it. */
  lemma SplitPatternHostPath(s: string)
    requires SplitMethod(s).0 == "" || ValidMethod(SplitMethod(s).0)
    ensures SplitPattern(s) ==
      HostPath(s, SplitMethod(s).0, SplitMethod(s).1, if SplitMethod(s).2 then |SplitMethod(s).0| + 1 else 0)
  {
  }

  /**
   * A method, a blank, and then text with no '/': "host/path missing /", at
   * the offset just past the blank.
   */
  lemma MissingSlashAfterMethod(m: string, rest: string)
    requires m == "" || ValidMethod(m)
    requires '/' !in rest
    ensures Parse(m + " " + rest) == Err(AtOffset(|m| + 1, MissingSlash))
  {
    var s := m + " " + rest;
    if m != "" {
      ValidMethodNoBlank(m);
    }
    assert SplitPattern(s) == Err(AtOffset(|m| + 1, MissingSlash)) by {
      SplitAfterMethod(m, rest);
      TrimLeftKeepsOut(rest, " \t", '/');
      SplitPatternHostPath(s);
    }
    ParseParts(s);
  }

  /** A blank-free method followed by a space: the split finds it and trims the blanks after it. */
  lemma SplitAfterMethod(m: string, rest: string)
    requires NoBlank(m)
    ensures SplitMethod(m + " " + rest) == (m, TrimLeft(rest, " \t"), true)
  {
    var s := m + " " + rest;
    var i := IndexAny(s, " \t");
    assert s[|m|] == ' ';
    assert i == |m| by {
      assert forall k :: 0 <= k < |m| ==> s[k] == m[k];
    }
    assert s[..i] == m && s[i + 1..] == rest;
  }

  /** Text with no blank and no '/': "host/path missing /" at offset 0. */
  lemma MissingSlashNoMethod(s: string)
    requires |s| > 0 && NoBlank(s) && '/' !in s
    ensures Parse(s) == Err(AtOffset(0, MissingSlash))
  {
    var sm := SplitMethod(s);
    assert !sm.2;
    SplitPatternHostPath(s);
    ParseParts(s);
  }

  /** Text that starts with '/' and has no blank is all path: no method and an empty host. */
  lemma PathOnly(s: string)
    requires |s| > 0 && s[0] == '/' && NoBlank(s)
    ensures SplitPattern(s) == Ok(Parts("", "", s))
  {
    var sm := SplitMethod(s);
    assert !sm.2;
    SplitPatternHostPath(s);
    assert IndexByte(s, '/') == 0;
    assert s[..0] == "" && s[0..] == s;
  }

  /** The concatenation of blank-free texts is blank-free. */
  lemma NoBlankConcat(a: string, b: string)
    requires NoBlank(a) && NoBlank(b)
    ensures NoBlank(a + b)
  {
    forall k | 0 <= k < |a + b|
      ensures (a + b)[k] != ' ' && (a + b)[k] != '\t'
    {
      if k >= |a| {
        assert (a + b)[k] == b[k - |a|];
      }
    }
  }

  /** t ends with the segment "{$}". */
  predicate EndsWithDollar(t: string) {
    |t| >= 3 && t[|t| - 3..] == "{$}"
  }

  /** The segments end with the "/" literal that "{$}" stands for. */
  predicate EndsInDollar(segs: seq<Segment>) {
    |segs| > 0 && segs[|segs| - 1] == Segment("/", false, false)
  }

  /** A final segment whose text ends with "{$}" is "{$}" itself, or an error. */
  lemma DollarPiece(seg: string, seen: set<string>)
    requires EndsWithDollar(seg)
    ensures ParsePiece(seg, true, seen).Ok? ==> ParsePiece(seg, true, seen).value.EndMark?
  {
    assert seg[|seg| - 3] == '{' && seg[|seg| - 2] == '$';
    var inner := seg[1..|seg| - 1];
    assert inner[|inner| - 1] == '$';
    assert !CutSuffix(inner, "...").1 by {
      assert |inner| >= 3 ==> inner[|inner| - 3..][2] == '$';
    }
    assert !IsValidWildcardName(inner) by {
      assert !IsLetter(inner[|inner| - 1]) && !IsDigit(inner[|inner| - 1]) && inner[|inner| - 1] != '_';
    }
  }

  /** A loop turn that does not end the parse leaves a final "{$}" still ahead. */
  lemma DollarStep(s: string, rest: string, seen: set<string>, segs: seq<Segment>)
    requires |rest| > 0 && rest[0] == '/' && |rest| <= |s| && EndsWithDollar(rest)
    ensures SegmentStep(s, rest, seen, segs).Next? ==> EndsWithDollar(SegmentStep(s, rest, seen, segs).rest)
  {
    var rest1 := rest[1..];
    var i := IndexByte(rest1, '/');
    var end := if i < 0 then |rest1| else i;
    var seg, rest2 := rest1[..end], rest1[end..];
    SegmentStepIs(s, rest, seen, segs, |s| - |rest1|, seg, rest2);
    if |rest2| == 0 {
      assert EndsWithDollar(seg) by {
        assert seg == rest[1..];
      }
      DollarPiece(seg, seen);
    } else {
      assert rest2 == rest[1 + end..];
      DollarAhead(rest, 1 + end);
    }
  }

  /** A part of the text from a '/' on still ends with the "{$}" the text ends with. */
  lemma DollarAhead(rest: string, k: int)
    requires EndsWithDollar(rest) && 0 <= k < |rest| && rest[k] == '/'
    ensures EndsWithDollar(rest[k..])
  {
    assert rest[|rest| - 3] == '{' && rest[|rest| - 2] == '$' && rest[|rest| - 1] == '}';
    assert k < |rest| - 3;
    assert rest[k..][|rest| - k - 3..] == rest[|rest| - 3..];
  }

  lemma {:induction false} DollarSegments(s: string, rest: string, seen: set<string>, segs: seq<Segment>)
    requires |rest| > 0 && rest[0] == '/' && |rest| <= |s| && EndsWithDollar(rest)
    ensures ParseSegments(s, rest, seen, segs).Ok? ==> EndsInDollar(ParseSegments(s, rest, seen, segs).value)
    decreases |rest|
  {
    var st := SegmentStep(s, rest, seen, segs);
    DollarStep(s, rest, seen, segs);
    if st.Done? {
      assert ParseSegments(s, rest, seen, segs) == st.result;
      assert rest != "/";
    } else {
      assert ParseSegments(s, rest, seen, segs) == ParseSegments(s, st.rest, st.seen, st.segs);
      DollarSegments(s, st.rest, st.seen, st.segs);
    }
  }

  /** A pattern whose path ends in "{$}" ends with the "/" literal that "{$}" stands for. */
  lemma DollarEnd(s: string)
    requires Parse(s).Ok? && EndsWithDollar(SplitPattern(s).value.path)
    ensures EndsInDollar(Parse(s).value.segments)
  {
    var path := SplitPattern(s).value.path;
    DollarSegments(s, path, {}, []);
  }

  /** A segment "{name}" with a valid name: the wildcard, or a duplicate once the name is taken. */
  lemma WildPiece(n: string, atEnd: bool, seen: set<string>)
    requires IsValidWildcardName(n)
    ensures ParsePiece("{" + n + "}", atEnd, seen) ==
      if n in seen then Err(DuplicateWildcard(n)) else Ok(Wild(n, false))
  {
    ValidNameChars(n);
    var seg := "{" + n + "}";
    assert seg[0] == '{' && seg[|seg| - 1] == '}';
    assert IndexByte(seg, '{') == 0;
    assert seg[1..|seg| - 1] == n;
    assert n != "$" by {
      assert n[0] in n;
    }
    assert !CutSuffix(n, "...").1 by {
      assert n[|n| - 1] in n;
      assert |n| >= 3 ==> n[|n| - 3..][2] == n[|n| - 1];
    }
  }

  /** The first turn of the path loop over s, for a first segment seg followed by rest2. */
  lemma FirstSegment(s: string, seg: string, rest2: string)
    requires s == "/" + seg + rest2
    requires seg != "" && '/' !in seg && (rest2 == "" || rest2[0] == '/')
    ensures var st := PieceStep(1, ParsePiece(seg, |rest2| == 0, {}), rest2, {}, []);
      ParseSegments(s, s, {}, []) == if st.Done? then st.result else ParseSegments(s, st.rest, st.seen, st.segs)
  {
    var rest1 := s[1..];
    assert rest1 == seg + rest2;
    assert rest1[..|seg|] == seg && rest1[|seg|..] == rest2;
    if rest2 == "" {
      assert IndexByte(rest1, '/') < 0;
    } else {
      IndexByteAt(rest1, '/', |seg|);
    }
    SegmentStepIs(s, s, {}, [], 1, seg, rest2);
    ParseSegmentsStep(s, s, {}, []);
  }

  /** A blank-free text that starts with '/' fails as its path loop fails. */
  lemma PathParse(s: string)
    requires |s| > 0 && s[0] == '/' && NoBlank(s)
    ensures ParseSegments(s, s, {}, []).Err? ==> Parse(s) == Err(ParseSegments(s, s, {}, []).error)
  {
    PathOnly(s);
    ParseParts(s);
  }

  /** The last turn of the path loop, over a final segment seg. */
  lemma LastSegmentErr(s: string, rest: string, seen: set<string>, segs: seq<Segment>, seg: string)
    requires rest == "/" + seg && seg != "" && '/' !in seg && |rest| <= |s|
    ensures ParsePiece(seg, true, seen).Err? ==>
      ParseSegments(s, rest, seen, segs) == Err(AtOffset(|s| - |rest| + 1, ParsePiece(seg, true, seen).error))
  {
    assert rest[1..] == seg;
    assert seg[..|seg|] == seg && seg[|seg|..] == "";
    assert IndexByte(seg, '/') < 0;
    SegmentStepIs(s, rest, seen, segs, |s| - |rest| + 1, seg, "");
    ParseSegmentsStep(s, rest, seen, segs);
  }

  /** "{name...}" with more path after it: "{...} wildcard not at end". */
  lemma MultiPiece(n: string, seen: set<string>)
    ensures ParsePiece("{" + n + "...}", false, seen) == Err(MultiNotAtEnd)
  {
    var seg := "{" + n + "...}";
    assert IndexByte(seg, '{') == 0;
    assert seg[1..|seg| - 1] == n + "...";
    assert CutSuffix(n + "...", "...") == (n, true);
  }

  /** A "{name...}" segment with more path after it: "{...} wildcard not at end". */
  lemma MultiNotLast(n: string, t: string)
    requires '/' !in n && NoBlank(n) && NoBlank(t)
    ensures Parse("/{" + n + "...}/" + t) == Err(AtOffset(1, MultiNotAtEnd))
  {
    var seg := "{" + n + "...}";
    var s := "/" + seg + ("/" + t);
    assert s == "/{" + n + "...}/" + t;
    assert NoBlank(s) by {
      NoBlankConcat("/{", n);
      NoBlankConcat("/{" + n, "...}/");
      NoBlankConcat("/{" + n + "...}/", t);
    }
    assert '/' !in seg;
    MultiPiece(n, {});
    FirstSegment(s, seg, "/" + t);
    PathParse(s);
  }

  /** A second wildcard with a name already taken: "duplicate wildcard name". */
  lemma DuplicateName(n: string)
    requires IsValidWildcardName(n)
    ensures Parse("/{" + n + "}/{" + n + "}") == Err(AtOffset(|n| + 4, DuplicateWildcard(n)))
  {
    ValidNameChars(n);
    var s := "/{" + n + "}/{" + n + "}";
    assert NoBlank(s) by {
      assert NoBlank(n);
      NoBlankConcat("/{", n);
      NoBlankConcat("/{" + n, "}/{");
      NoBlankConcat("/{" + n + "}/{", n);
      NoBlankConcat("/{" + n + "}/{" + n, "}");
    }
    var seg := "{" + n + "}";
    assert s == "/" + seg + ("/" + seg);
    DuplicateLoop(n, seg, s);
    PathParse(s);
  }

  /** The path loop over "/{n}/{n}": the first turn takes the name, the second finds it taken. */
  lemma DuplicateLoop(n: string, seg: string, s: string)
    requires IsValidWildcardName(n) && seg == "{" + n + "}" && s == "/" + seg + ("/" + seg)
    ensures ParseSegments(s, s, {}, []) == Err(AtOffset(|n| + 4, DuplicateWildcard(n)))
  {
    var segs := [Segment(n, true, false)];
    FirstWildcard(s, n, seg, "/" + seg);
    WildSegmentLast(s, n, seg, {n}, segs);
  }

  /** A first segment "{n}" with more path after it: the loop goes on with the wildcard n taken. */
  lemma FirstWildcard(s: string, n: string, seg: string, rest2: string)
    requires IsValidWildcardName(n) && seg == "{" + n + "}" && s == "/" + seg + rest2
    requires rest2 != "" && rest2[0] == '/'
    ensures ParseSegments(s, s, {}, []) == ParseSegments(s, rest2, {n}, [Segment(n, true, false)])
  {
    ValidNameChars(n);
    assert '/' !in seg;
    WildPiece(n, false, {});
    FirstSegment(s, seg, rest2);
    assert {} + {n} == {n} && [] + [Segment(n, true, false)] == [Segment(n, true, false)];
  }

  /** A last segment "{n}" once n is taken: "duplicate wildcard name". */
  lemma WildSegmentLast(s: string, n: string, seg: string, seen: set<string>, segs: seq<Segment>)
    requires IsValidWildcardName(n) && seg == "{" + n + "}" && |"/" + seg| <= |s| && n in seen
    ensures ParseSegments(s, "/" + seg, seen, segs) == Err(AtOffset(|s| - |seg|, DuplicateWildcard(n)))
  {
    assert '/' !in seg by {
      ValidNameChars(n);
    }
    assert ParsePiece(seg, true, seen) == Err(DuplicateWildcard(n)) by {
      WildPiece(n, true, seen);
    }
    LastSegmentErr(s, "/" + seg, seen, segs, seg);
  }

  /** "{name}" around a name that is not an identifier: "bad wildcard name". */
  lemma BadPiece(n: string, seen: set<string>)
    requires n != "" && n != "$" && !IsValidWildcardName(n) && '.' !in n
    ensures ParsePiece("{" + n + "}", true, seen) == Err(BadWildcardName(n))
  {
    var seg := "{" + n + "}";
    assert seg[0] == '{' && seg[|seg| - 1] == '}';
    assert IndexByte(seg, '{') == 0;
    assert seg[1..|seg| - 1] == n;
    assert !CutSuffix(n, "...").1 by {
      assert n[|n| - 1] in n;
      assert |n| >= 3 ==> n[|n| - 3..][2] == n[|n| - 1];
    }
  }

  /** A wildcard name that is not an identifier: "bad wildcard name". */
  lemma BadName(n: string)
    requires n != "" && n != "$" && !IsValidWildcardName(n)
    requires '/' !in n && '.' !in n && NoBlank(n)
    ensures Parse("/{" + n + "}") == Err(AtOffset(1, BadWildcardName(n)))
  {
    var seg := "{" + n + "}";
    var s := "/" + seg;
    assert s == "/{" + n + "}";
    assert NoBlank(s) by {
      NoBlankConcat("/{", n);
      NoBlankConcat("/{" + n, "}");
    }
    assert '/' !in seg;
    BadPiece(n, {});
    LastSegmentErr(s, s, {}, [], seg);
    PathParse(s);
  }

  /**
   * parsePattern: the text before the path is split by `SplitPattern`, and
   * the path loop runs in `PathSegments`. The deferred rewrite of an error
   * into "at offset N" is applied where each error is returned.
   */
  method ParsePattern(s: string) returns (r: Result<Pattern, PatternError>)
    ensures r == Parse(s)
  {
    if |s| == 0 {
      return Err(EmptyPattern);
    }
    var parts := SplitPattern(s);
    if parts.Err? {
      return Err(parts.error);
    }
    r := PathSegments(s, parts.value);
  }

  /** One step of the segment loop, once the segment has been cut out. */
  lemma SegmentStepIs(s: string, rest: string, seen: set<string>, segs: seq<Segment>, off: int, seg: string, rest2: string)
    requires |rest| > 1 && rest[0] == '/' && |rest| <= |s| && off == |s| - |rest| + 1
    requires var i := IndexByte(rest[1..], '/');
      var end := if i < 0 then |rest| - 1 else i;
      seg == rest[1..][..end] && rest2 == rest[1..][end..]
    ensures SegmentStep(s, rest, seen, segs) == PieceStep(off, ParsePiece(seg, |rest2| == 0, seen), rest2, seen, segs)
  {
  }

  /** The path loop of parsePattern, for the parts the first part of it found. */
  method PathSegments(s: string, parts: Parts) returns (r: Result<Pattern, PatternError>)
    requires |parts.path| > 0 && parts.path[0] == '/' && |parts.path| <= |s|
    ensures r.Ok? == ParseSegments(s, parts.path, {}, []).Ok?
    ensures r.Ok? ==> r.value == Pattern(s, parts.httpMethod, parts.host, ParseSegments(s, parts.path, {}, []).value)
    ensures r.Err? ==> r.error == ParseSegments(s, parts.path, {}, []).error
  {
    ghost var want := ParseSegments(s, parts.path, {}, []);
    var rest := parts.path;
    var segments: seq<Segment> := [];
    var seenNames: set<string> := {};
    while |rest| > 0
      invariant |rest| == 0 || rest[0] == '/'
      invariant |rest| <= |s|
      invariant ParseSegments(s, rest, seenNames, segments) == want
      decreases |rest|
    {
      ghost var st := SegmentStep(s, rest, seenNames, segments);
      ghost var whole := rest;
      ParseSegmentsStep(s, rest, seenNames, segments);
      rest := rest[1..];
      var off := |s| - |rest|;
      if |rest| == 0 {
        // Trailing slash.
        segments := segments + [Segment("", true, true)];
        assert st == Done(Ok(segments));
        return Ok(Pattern(s, parts.httpMethod, parts.host, segments));
      }
      var i := IndexByte(rest, '/');
      if i < 0 {
        i := |rest|;
      }
      var seg := rest[..i];
      rest := rest[i..];
      var piece := ParsePiece(seg, |rest| == 0, seenNames);
      SegmentStepIs(s, whole, seenNames, segments, off, seg, rest);
      match piece {
        case Err(kind) =>
          assert st == Done(Err(AtOffset(off, kind)));
          return Err(AtOffset(off, kind));
        case Ok(Lit(text)) =>
          segments := segments + [Segment(text, false, false)];
        case Ok(EndMark) =>
          segments := segments + [Segment("/", false, false)];
          assert st == Done(Ok(segments));
          return Ok(Pattern(s, parts.httpMethod, parts.host, segments));
        case Ok(Wild(name, multi)) =>
          seenNames := seenNames + {name};
          segments := segments + [Segment(name, true, multi)];
      }
      assert st == Next(rest, seenNames, segments);
    }
    return Ok(Pattern(s, parts.httpMethod, parts.host, segments));
  }
}

/**
 * The part of Go's url.Parse that the gateway depends on: whether a URL
 * parses at all, its scheme and its host.
 *
 * The steps follow net/url: cut the fragment at the first '#', reject ASCII
 * control characters, split off a scheme (which is lower-cased), cut the
 * query at the first '?', and take the host from an authority introduced
 * by "//", after the last '@', with a port that must be all digits. The
 * host, the user info before the '@', the path and the fragment are checked
 * the way unescape checks them, and the host is returned unescaped.
 */
module Url {
  import opened Wrappers
  import opened Strings

  datatype Url = Url(scheme: string, host: string)

  datatype UrlError =
    | InvalidControlCharacter
    | MissingProtocolScheme
    | ColonInFirstPathSegment
    | InvalidPort(port: string)
    | InvalidHost(host: string)
    | InvalidUserinfo
    | InvalidEscape(text: string)

  predicate IsControl(c: char)
  {
    c as int < 0x20 || c as int == 0x7F
  }

  predicate IsLetter(c: char)
  {
    'a' <= c <= 'z' || 'A' <= c <= 'Z'
  }

  /** A character that may follow the first letter of a scheme. */
  predicate IsSchemeTail(c: char)
  {
    IsLetter(c) || '0' <= c <= '9' || c == '+' || c == '-' || c == '.'
  }

  /** The text before the first `c`, or all of `s` when there is none. */
  function Before(s: string, c: char): (r: string)
    ensures c !in r && r <= s
  {
    var i := IndexOf(s, c);
    if i == -1 then s else s[..i]
  }

  /** The text after the first `c`, or "" when there is none. */
  function After(s: string, c: char): (r: string)
    ensures c !in s ==> r == ""
    ensures c in s ==> s == Before(s, c) + [c] + r
  {
    var i := IndexOf(s, c);
    if i == -1 then "" else s[i + 1..]
  }

  predicate IsHex(c: char)
  {
    '0' <= c <= '9' || 'a' <= c <= 'f' || 'A' <= c <= 'F'
  }

  function HexValue(c: char): (v: int)
    requires IsHex(c)
    ensures 0 <= v < 16
  {
    if '0' <= c <= '9' then c as int - '0' as int
    else if 'a' <= c <= 'f' then c as int - 'a' as int + 10
    else c as int - 'A' as int + 10
  }

  /** The check unescape makes in every mode: each '%' starts an escape of two hex digits. */
  predicate ValidEscapes(s: string)
  {
    forall k :: 0 <= k < |s| && s[k] == '%' ==> k + 2 < |s| && IsHex(s[k + 1]) && IsHex(s[k + 2])
  }

  /** An ASCII character that a host may hold unescaped: shouldEscape is false for it in host mode. */
  predicate IsHostChar(c: char)
  {
    IsLetter(c) || '0' <= c <= '9'
    || c == '!' || c == '$' || c == '&' || c == '\'' || c == '(' || c == ')' || c == '*' || c == '+' || c == ','
    || c == ';' || c == '=' || c == ':' || c == '[' || c == ']' || c == '<' || c == '>' || c == '"'
    || c == '-' || c == '_' || c == '.' || c == '~'
  }

  /**
   * unescape in host mode, at index `k`: an escape must be well formed and
   * may not stand for an ASCII byte other than '%' itself ("%25"); an ASCII
   * character must be one that needs no escaping; others are accepted.
   */
  predicate HostCharOk(h: string, k: int)
    requires 0 <= k < |h|
  {
    if h[k] == '%' then
      k + 2 < |h| && IsHex(h[k + 1]) && IsHex(h[k + 2]) && (HexValue(h[k + 1]) >= 8 || (h[k + 1] == '2' && h[k + 2] == '5'))
    else h[k] as int >= 0x80 || IsHostChar(h[k])
  }

  predicate ValidHost(h: string)
  {
    forall k :: 0 <= k < |h| ==> HostCharOk(h, k)
  }

  lemma ValidHostEscapes(h: string)
    requires ValidHost(h)
    ensures ValidEscapes(h)
  {
    forall k | 0 <= k < |h| && h[k] == '%'
      ensures k + 2 < |h| && IsHex(h[k + 1]) && IsHex(h[k + 2])
    {
      assert HostCharOk(h, k);
    }
  }

  /** The characters validUserinfo allows. */
  predicate IsUserinfoChar(c: char)
  {
    IsLetter(c) || '0' <= c <= '9'
    || c == '-' || c == '.' || c == '_' || c == ':' || c == '~' || c == '!' || c == '$' || c == '&' || c == '\''
    || c == '(' || c == ')' || c == '*' || c == '+' || c == ',' || c == ';' || c == '=' || c == '%' || c == '@'
  }

  predicate ValidUserinfoChars(u: string)
  {
    forall k :: 0 <= k < |u| ==> IsUserinfoChar(u[k])
  }

  lemma EscapesTail(s: string, n: nat)
    requires n <= |s| && ValidEscapes(s)
    ensures ValidEscapes(s[n..])
  {
    forall k | 0 <= k < |s[n..]| && s[n..][k] == '%'
      ensures k + 2 < |s[n..]| && IsHex(s[n..][k + 1]) && IsHex(s[n..][k + 2])
    {
      assert s[k + n] == '%';
    }
  }

  /** unescape's result: each escape replaced by the character with that code. */
  function Unescape(s: string): (r: string)
    requires ValidEscapes(s)
    ensures '%' !in s ==> r == s
    decreases |s|
  {
    if s == [] then []
    else if s[0] == '%' then
      EscapesTail(s, 3);
      [(HexValue(s[1]) * 16 + HexValue(s[2])) as char] + Unescape(s[3..])
    else
      EscapesTail(s, 1);
      assert '%' !in s ==> '%' !in s[1..];
      [s[0]] + Unescape(s[1..])
  }

  /**
   * getScheme, scanning from index `i`: letters may appear anywhere,
   * digits, '+', '-' and '.' after the first character; a ':' ends the
   * scheme (a ':' first is an error); any other character means that the
   * URL has no scheme.
   */
  function SplitScheme(u: string, i: nat): Result<(string, string), UrlError>
    requires i <= |u|
    decreases |u| - i
  {
    if i == |u| then Success(("", u))
    else
      var c := u[i];
      if IsLetter(c) then SplitScheme(u, i + 1)
      else if IsSchemeTail(c) then (if i == 0 then Success(("", u)) else SplitScheme(u, i + 1))
      else if c == ':' then (if i == 0 then Failure(MissingProtocolScheme) else Success((u[..i], u[i + 1..])))
      else Success(("", u))
  }

  /** validOptionalPort: empty, or ':' followed by digits only. */
  predicate ValidOptionalPort(port: string)
  {
    port == "" || (port[0] == ':' && forall k :: 1 <= k < |port| ==> '0' <= port[k] <= '9')
  }

  /**
   * parseHost for a host not in brackets: the port after the last ':' must
   * be digits, then the host is unescaped in host mode. Go reports a bad
   * escape and a bad character as two error types; both are InvalidHost here.
   */
  function ParseHost(host: string): Result<string, UrlError>
  {
    var colon := LastIndexOf(host, ':');
    if colon != -1 && !ValidOptionalPort(host[colon..]) then Failure(InvalidPort(host[colon..]))
    else if !ValidHost(host) then Failure(InvalidHost(host))
    else
      ValidHostEscapes(host);
      Success(Unescape(host))
  }

  /**
   * parseAuthority: the host is what follows the last '@'; what precedes it
   * is the user info, which must hold only the characters validUserinfo
   * allows and well-formed escapes.
   */
  function ParseAuthority(authority: string): Result<string, UrlError>
  {
    var at := LastIndexOf(authority, '@');
    match ParseHost(authority[at + 1..])
    case Failure(e) => Failure(e)
    case Success(host) =>
      var userinfo := if at == -1 then "" else authority[..at];
      if !ValidUserinfoChars(userinfo) then Failure(InvalidUserinfo)
      else if !ValidEscapes(userinfo) then Failure(InvalidEscape(userinfo))
      else Success(host)
  }

  /** setPath: the path must hold well-formed escapes. */
  function SetPath(url: Url, path: string): Result<Url, UrlError>
  {
    if ValidEscapes(path) then Success(url) else Failure(InvalidEscape(path))
  }

  /** net/url's parse(u, false), after the control-character check. */
  function ParseReference(u: string): Result<Url, UrlError>
  {
    if u == "*" then Success(Url("", ""))
    else
      match SplitScheme(u, 0)
      case Failure(e) => Failure(e)
      case Success((rawScheme, afterScheme)) =>
        var scheme := ToLower(rawScheme);
        var rest := Before(afterScheme, '?');
        if !("/" <= rest) && scheme != "" then Success(Url(scheme, ""))
        else if !("/" <= rest) && ':' in Before(rest, '/') then Failure(ColonInFirstPathSegment)
        else if (scheme != "" || !("///" <= rest)) && "//" <= rest then
          var authority := Before(rest[2..], '/');
          match ParseAuthority(authority)
          case Failure(e) => Failure(e)
          case Success(host) => SetPath(Url(scheme, host), rest[2..][|authority|..])
        else SetPath(Url(scheme, ""), rest)
  }

  /**
   * url.Parse: control characters are refused before the '#', and what
   * follows the '#' must hold well-formed escapes. A parsed scheme is
   * lower-case.
   */
  function Parse(raw: string): (r: Result<Url, UrlError>)
    ensures (exists c :: c in Before(raw, '#') && IsControl(c)) ==> r == Failure(InvalidControlCharacter)
    ensures r.Success? ==> ValidEscapes(After(raw, '#'))
    ensures r.Success? ==> forall k :: 0 <= k < |r.value.scheme| ==> !('A' <= r.value.scheme[k] <= 'Z')
  {
    var u := Before(raw, '#');
    var fragment := After(raw, '#');
    if exists c :: c in u && IsControl(c) then Failure(InvalidControlCharacter)
    else
      match ParseReference(u)
      case Failure(e) => Failure(e)
      case Success(url) => if ValidEscapes(fragment) then Success(url) else Failure(InvalidEscape(fragment))
  }

  /** The path through parse(u, false) that a URL whose authority does not parse takes. */
  lemma ReferenceWithBadAuthority(raw: string, rawScheme: string, after: string, authority: string)
    requires raw != "*"
    requires SplitScheme(raw, 0) == Success((rawScheme, after))
    requires rawScheme != ""
    requires Before(after, '?') == after && "//" <= after
    requires Before(after[2..], '/') == authority && ParseAuthority(authority).Failure?
    ensures ParseReference(raw) == Failure(ParseAuthority(authority).error)
  {
    assert ToLower(rawScheme) != "";
  }

  /** A scheme as it may be written: a letter, then letters, digits, '+', '-' or '.'. */
  predicate IsScheme(s: string)
  {
    |s| > 0 && IsLetter(s[0]) && forall k :: 0 <= k < |s| ==> IsSchemeTail(s[k])
  }

  /** A host name made of letters, digits, '-', '.' and '_'. */
  predicate IsPlainHost(h: string)
  {
    forall k :: 0 <= k < |h| ==> IsLetter(h[k]) || '0' <= h[k] <= '9' || h[k] == '-' || h[k] == '.' || h[k] == '_'
  }

  lemma {:induction false} SplitSchemeOf(scheme: string, rest: string, i: nat)
    requires IsScheme(scheme) && i <= |scheme|
    ensures SplitScheme(scheme + ":" + rest, i) == Success((scheme, rest))
    decreases |scheme| - i
  {
    var u := scheme + ":" + rest;
    if i == |scheme| {
      assert u[i] == ':' && u[..i] == scheme && u[i + 1..] == rest;
    } else {
      assert u[i] == scheme[i];
      SplitSchemeOf(scheme, rest, i + 1);
    }
  }

  /** Without a '#' or a control character, Parse is parse(u, false). */
  lemma ParseWithoutFragment(raw: string)
    requires '#' !in raw
    requires forall c :: c in raw ==> !IsControl(c)
    ensures Parse(raw) == ParseReference(raw)
  {
    assert Before(raw, '#') == raw;
  }

  /** The path through parse(u, false) that a URL with an authority takes. */
  lemma ReferenceWithAuthority(raw: string, rawScheme: string, after: string, host: string)
    requires raw != "*"
    requires SplitScheme(raw, 0) == Success((rawScheme, after))
    requires rawScheme != ""
    requires Before(after, '?') == after && "//" <= after
    requires Before(after[2..], '/') == host && ParseAuthority(host) == Success(host)
    requires ValidEscapes(after[2..][|host|..])
    ensures ParseReference(raw) == Success(Url(ToLower(rawScheme), host))
  {
    assert ToLower(rawScheme) != "";
  }

  lemma NoPlainHostMarks(host: string)
    requires IsPlainHost(host)
    ensures forall c :: c in host ==> !IsControl(c) && c != '?' && c != '#' && c != '/' && c != '@' && c != ':'
  {
  }

  lemma NoSchemeMarks(scheme: string)
    requires IsScheme(scheme)
    ensures forall c :: c in scheme ==> !IsControl(c) && c != '?' && c != '#'
  {
  }

  /** A plain host is a valid host that unescapes to itself. */
  lemma PlainHostIsValid(host: string)
    requires IsPlainHost(host)
    ensures ValidHost(host) && '%' !in host && Unescape(host) == host
  {
    NoPlainHostMarks(host);
    assert forall k :: 0 <= k < |host| ==> HostCharOk(host, k);
  }

  /** The authority of "//host/path" is `host` when `host` has no '/'. */
  lemma AuthorityOf(host: string, path: string)
    requires '/' !in host
    ensures var after := "//" + host + "/" + path;
      && "//" <= after
      && Before(after[2..], '/') == host
      && after[2..][|host|..] == "/" + path
  {
    var after := "//" + host + "/" + path;
    assert after[2..] == host + "/" + path;
    IndexOfAfterFree(host, path, '/');
    assert (host + "/" + path)[..|host|] == host;
    assert (host + "/" + path)[|host|..] == "/" + path;
  }

  /** The authority of "//host/path" is `host`, and it is its own host. */
  lemma AuthorityOfPlainHost(host: string, path: string)
    requires IsPlainHost(host)
    ensures var after := "//" + host + "/" + path;
      && "//" <= after
      && Before(after[2..], '/') == host
      && after[2..][|host|..] == "/" + path
      && ParseAuthority(host) == Success(host)
  {
    NoPlainHostMarks(host);
    AuthorityOf(host, path);
    assert '@' !in host && ':' !in host;
    assert host[0..] == host;
    PlainHostIsValid(host);
    assert ParseHost(host) == Success(host);
  }

  lemma NoEscapes(s: string)
    requires '%' !in s
    ensures ValidEscapes(s)
  {
  }

  /** The characters of "scheme://host/path" that parsing looks for. */
  lemma SchemeHostMarks(scheme: string, host: string, path: string)
    requires IsScheme(scheme) && IsPlainHost(host)
    requires forall c :: c in path ==> !IsControl(c) && c != '?' && c != '#' && c != '%'
    ensures var after := "//" + host + "/" + path;
      && scheme + "://" + host + "/" + path == scheme + ":" + after
      && '#' !in scheme + ":" + after
      && (forall c :: c in scheme + ":" + after ==> !IsControl(c))
      && Before(after, '?') == after
      && ValidEscapes("/" + path)
  {
    var after := "//" + host + "/" + path;
    assert scheme + "://" + host + "/" + path == scheme + ":" + after;
    NoSchemeMarks(scheme);
    NoPlainHostMarks(host);
    assert '?' !in after;
    NoEscapes("/" + path);
  }

  /**
   * "scheme://host/path" parses to that scheme, lower-cased, and that host,
   * for a path free of control characters, '?', '#' and '%'.
   */
  lemma ParseSchemeHost(scheme: string, host: string, path: string)
    requires IsScheme(scheme) && IsPlainHost(host)
    requires forall c :: c in path ==> !IsControl(c) && c != '?' && c != '#' && c != '%'
    ensures Parse(scheme + "://" + host + "/" + path) == Success(Url(ToLower(scheme), host))
  {
    var after := "//" + host + "/" + path;
    var raw := scheme + ":" + after;
    SchemeHostMarks(scheme, host, path);
    assert ParseReference(raw) == Success(Url(ToLower(scheme), host)) by {
      SplitSchemeOf(scheme, after, 0);
      AuthorityOfPlainHost(host, path);
      ReferenceWithAuthority(raw, scheme, after, host);
    }
    ParseWithoutFragment(raw);
  }

  /** "//host/path" holds no control character, '?' or '#' when its parts hold none. */
  lemma AuthorityMarks(host: string, path: string)
    requires forall c :: c in host ==> !IsControl(c) && c != '?' && c != '#'
    requires forall c :: c in path ==> !IsControl(c) && c != '?' && c != '#'
    ensures forall c :: c in "//" + host + "/" + path ==> !IsControl(c) && c != '?' && c != '#'
  {
  }

  /** "scheme:after" holds no control character or '#' when `after` holds none. */
  lemma SchemeMarks(scheme: string, after: string)
    requires IsScheme(scheme)
    requires forall c :: c in after ==> !IsControl(c) && c != '#'
    ensures '#' !in scheme + ":" + after && forall c :: c in scheme + ":" + after ==> !IsControl(c)
  {
    NoSchemeMarks(scheme);
  }

  /** A host the host check refuses, with no '@' or ':', is an authority that does not parse. */
  lemma BadHostAuthority(host: string)
    requires !ValidHost(host) && '@' !in host && ':' !in host
    ensures ParseAuthority(host) == Failure(InvalidHost(host))
  {
    assert host[0..] == host;
  }

  /**
   * A host with a character the host check refuses (a space, '{', '|', an
   * escape of an ASCII byte) makes "scheme://host/path" fail to parse.
   */
  lemma ParseBadHost(scheme: string, host: string, path: string)
    requires IsScheme(scheme) && !ValidHost(host)
    requires forall c :: c in host ==> !IsControl(c) && c != '?' && c != '#' && c != '/' && c != '@' && c != ':'
    requires forall c :: c in path ==> !IsControl(c) && c != '?' && c != '#'
    ensures Parse(scheme + "://" + host + "/" + path) == Failure(InvalidHost(host))
  {
    var after := "//" + host + "/" + path;
    var raw := scheme + ":" + after;
    assert scheme + "://" + host + "/" + path == raw;
    assert '#' !in raw && forall c :: c in raw ==> !IsControl(c) by {
      AuthorityMarks(host, path);
      SchemeMarks(scheme, after);
    }
    assert ParseReference(raw) == Failure(InvalidHost(host)) by {
      AuthorityMarks(host, path);
      BadHostAuthority(host);
      SplitSchemeOf(scheme, after, 0);
      AuthorityOf(host, path);
      ReferenceWithBadAuthority(raw, scheme, after, host);
    }
    ParseWithoutFragment(raw);
  }

  /** A space is not allowed in a host: "azure://my container/" does not parse, for one. */
  lemma SpaceInHostRejected(scheme: string, a: string, b: string, path: string)
    requires IsScheme(scheme) && IsPlainHost(a) && IsPlainHost(b)
    requires forall c :: c in path ==> !IsControl(c) && c != '?' && c != '#'
    ensures Parse(scheme + "://" + (a + " " + b) + "/" + path) == Failure(InvalidHost(a + " " + b))
  {
    var host := a + " " + b;
    assert !HostCharOk(host, |a|);
    assert forall c :: c in host ==> !IsControl(c) && c != '?' && c != '#' && c != '/' && c != '@' && c != ':' by {
      NoPlainHostMarks(a);
      NoPlainHostMarks(b);
    }
    ParseBadHost(scheme, host, path);
  }
}

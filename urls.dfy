/** The part of Go's `url.Parse` that decides whether a base URL is accepted and what its scheme and
    path are. The steps are: cut the fragment at '#', refuse control characters, read the scheme up to
    the first ':', cut the query at '?', split "//authority/path", check the authority (user info,
    the port after the host, the characters and escapes of the host), then check the escapes of the
    path and of the fragment. Escapes are checked, not decoded: the path is kept as written. */
module Urls {
  import opened Wrappers
  import opened Text

  datatype Url = Url(
    scheme: string,             // lower-cased
    rest: string,               // what follows "scheme:" when it does not start with a slash
    authority: Option<string>,  // the text after "//", up to the next '/'
    path: string,
    rawQuery: string,
    fragment: string)

  /** Position of the first `c` in `s`. */
  function IndexOf(s: string, c: char): (i: nat)
    requires c in s
    ensures i < |s| && s[i] == c && c !in s[..i]
  {
    if s[0] == c then 0 else 1 + IndexOf(s[1..], c)
  }

  /** `strings.Cut(s, string(c))`: the text before and after the first `c`, and whether there was one. */
  function Cut(s: string, c: char): (r: (string, string, bool))
    ensures r.2 <==> c in s
    ensures r.2 ==> s == r.0 + [c] + r.1 && c !in r.0
    ensures !r.2 ==> r.0 == s && r.1 == ""
  {
    if c in s then
      var i := IndexOf(s, c);
      assert s == s[..i] + [c] + s[i + 1..];
      (s[..i], s[i + 1..], true)
    else
      (s, "", false)
  }

  /** Cutting at the first `c` of `a + [c] + b`, where `a` holds no `c`, gives `a` and `b`. */
  lemma {:induction false} CutAtFirst(a: string, c: char, b: string)
    requires c !in a
    ensures Cut(a + [c] + b, c) == (a, b, true)
  {
    var s := a + [c] + b;
    assert s[..|a|] == a && s[|a|] == c && s[|a| + 1..] == b;
  }

  /** Bytes below 0x20 and DEL, which `url.Parse` refuses. */
  predicate IsControl(c: char)
  {
    c < ' ' || c == '\U{007F}'
  }

  predicate IsLetter(c: char)
  {
    'a' <= c <= 'z' || 'A' <= c <= 'Z'
  }

  /** A character allowed in a scheme after its first letter. */
  predicate IsSchemeChar(c: char)
  {
    IsLetter(c) || IsDigit(c) || c == '+' || c == '-' || c == '.'
  }

  /** Go's `getScheme`, scanning from position `i`: letters first, then letters, digits, '+', '-' or
      '.', up to a ':'. A leading ':' is an error; any other character ends the scan with no scheme. */
  function GetScheme(s: string, i: nat): (r: Result<(string, string)>)
    requires i <= |s|
    requires forall k :: 0 <= k < i ==> IsSchemeChar(s[k])
    requires i > 0 ==> IsLetter(s[0])
    ensures r.Err? <==> (i == 0 && s != [] && s[0] == ':')
    ensures r.Ok? && r.value.0 != "" ==>
      s == r.value.0 + ":" + r.value.1 && IsLetter(s[0]) && forall k :: 0 <= k < |r.value.0| ==> IsSchemeChar(s[k])
    ensures r.Ok? && r.value.0 == "" ==> r.value.1 == s
    decreases |s| - i
  {
    if i == |s| then Ok(("", s))
    else
      var c := s[i];
      if IsLetter(c) then GetScheme(s, i + 1)
      else if IsDigit(c) || c == '+' || c == '-' || c == '.' then
        if i == 0 then Ok(("", s)) else GetScheme(s, i + 1)
      else if c == ':' then
        if i == 0 then Err(Fail("missing protocol scheme"))
        else
          assert s == s[..i] + ":" + s[i + 1..];
          Ok((s[..i], s[i + 1..]))
      else Ok(("", s))
  }

  /** Position of the last `c` in `s`, if there is one. */
  function LastIndexOf(s: string, c: char): (r: Option<nat>)
    ensures r.None? <==> c !in s
    ensures r.Some? ==> r.value < |s| && s[r.value] == c && c !in s[r.value + 1..]
    decreases |s|
  {
    if s == [] then None
    else if s[|s| - 1] == c then Some(|s| - 1)
    else
      var r := LastIndexOf(s[..|s| - 1], c);
      assert s == s[..|s| - 1] + [s[|s| - 1]];
      if r.Some? then
        assert s[r.value + 1..] == s[..|s| - 1][r.value + 1..] + [s[|s| - 1]];
        r
      else r
  }

  // ---------------------------------------------------------------- escapes

  predicate IsHex(c: char)
  {
    IsDigit(c) || 'a' <= c <= 'f' || 'A' <= c <= 'F'
  }

  function HexValue(c: char): (v: nat)
    requires IsHex(c)
    ensures v < 16
  {
    if IsDigit(c) then c as int - '0' as int
    else if 'a' <= c <= 'f' then c as int - 'a' as int + 10
    else c as int - 'A' as int + 10
  }

  /** The ASCII characters a host may hold as they are (`shouldEscape` in host mode is false): letters,
      digits, the sub-delimiters, ':' for the port, brackets for IPv6, '<', '>', '"' and the
      unreserved marks. */
  predicate IsHostChar(c: char)
  {
    IsLetter(c) || IsDigit(c) || c in "!$&'()*+,;=:[]<>\"-_.~"
  }

  /** What `unescape` accepts at position `k`: a '%' starts two hex digits. In a host such an escape
      must stand for a byte of 0x80 or more, or be "%25", and any other ASCII character must be a host
      character. */
  predicate EscapeOk(s: string, k: nat, host: bool)
    requires k < |s|
  {
    if s[k] == '%' then
      k + 2 < |s| && IsHex(s[k + 1]) && IsHex(s[k + 2]) && (host ==> HexValue(s[k + 1]) >= 8 || s[k..k + 3] == "%25")
    else
      host && s[k] < '\U{0080}' ==> IsHostChar(s[k])
  }

  /** A string `unescape` accepts, in host mode or not. */
  predicate WellEscaped(s: string, host: bool)
  {
    forall k :: 0 <= k < |s| ==> EscapeOk(s, k, host)
  }

  /** The checking pass of `unescape`, from position `i`: the first bad escape (at most three
      characters of it are shown) or, in a host, the first character a host cannot hold. */
  function CheckEscapes(s: string, i: nat, host: bool): Result<()>
    requires i <= |s|
    decreases |s| - i
  {
    if i == |s| then Ok(())
    else if s[i] == '%' then
      if i + 2 >= |s| || !IsHex(s[i + 1]) || !IsHex(s[i + 2]) then
        Err(Fail("invalid URL escape \"" + s[i..if i + 3 <= |s| then i + 3 else |s|] + "\""))
      else if host && HexValue(s[i + 1]) < 8 && s[i..i + 3] != "%25" then
        Err(Fail("invalid URL escape \"" + s[i..i + 3] + "\""))
      else
        CheckEscapes(s, i + 3, host)
    else if host && s[i] < '\U{0080}' && !IsHostChar(s[i]) then
      Err(Fail("invalid character \"" + [s[i]] + "\" in host name"))
    else
      CheckEscapes(s, i + 1, host)
  }

  /** The checking pass accepts exactly the strings every position of which is acceptable. */
  lemma {:induction false} CheckEscapesAccepts(s: string, i: nat, host: bool)
    requires i <= |s|
    ensures CheckEscapes(s, i, host).Ok? <==> forall k :: i <= k < |s| ==> EscapeOk(s, k, host)
    decreases |s| - i
  {
    if i < |s| {
      if s[i] != '%' {
        CheckEscapesAccepts(s, i + 1, host);
        assert EscapeOk(s, i, host) <==> !(host && s[i] < '\U{0080}' && !IsHostChar(s[i]));
      } else if i + 2 < |s| && IsHex(s[i + 1]) && IsHex(s[i + 2]) {
        CheckEscapesAccepts(s, i + 3, host);
        assert EscapeOk(s, i + 1, host) && EscapeOk(s, i + 2, host);
        assert EscapeOk(s, i, host) <==> (host ==> HexValue(s[i + 1]) >= 8 || s[i..i + 3] == "%25");
      } else {
        assert !EscapeOk(s, i, host);
      }
    }
  }

  /** A bad escape is reported by its first three characters only, as in "%zzabc". */
  lemma BadEscapeText(s: string)
    requires s == "%zzabc"
    ensures CheckEscapes(s, 0, false) == Err(Fail("invalid URL escape \"%zz\""))
    ensures CheckEscapes(s[..2], 0, false) == Err(Fail("invalid URL escape \"%z\""))
  {
    assert s[..3] == "%zz";
    assert s[..2][0..2] == "%z";
  }

  /** `unescape(s, mode)` as far as acceptance goes. */
  function Unescape(s: string, host: bool): (r: Result<()>)
    ensures r.Ok? <==> WellEscaped(s, host)
  {
    CheckEscapesAccepts(s, 0, host);
    CheckEscapes(s, 0, host)
  }

  /** An escape that is accepted outside a host is accepted in each part of the text around a ':'. */
  lemma SplitAtColonEscapes(s: string)
    requires ':' in s
    ensures var (name, password, _) := Cut(s, ':');
      WellEscaped(s, false) <==> WellEscaped(name, false) && WellEscaped(password, false)
  {
    var (name, password, _) := Cut(s, ':');
    var n := |name|;
    assert s == name + [':'] + password;
    forall k | 0 <= k < n
      ensures EscapeOk(s, k, false) <==> EscapeOk(name, k, false)
    {
      if s[k] == '%' && k + 2 < |s| && IsHex(s[k + 1]) && IsHex(s[k + 2]) {
        assert s[n] == ':';
        assert k + 2 < n;
      }
    }
    forall k | 0 <= k < |password|
      ensures EscapeOk(s, n + 1 + k, false) <==> EscapeOk(password, k, false)
    {
    }
    assert EscapeOk(s, n, false);
    if WellEscaped(name, false) && WellEscaped(password, false) {
      forall k | 0 <= k < |s| ensures EscapeOk(s, k, false) {
        if k > n {
          assert EscapeOk(password, k - n - 1, false);
        }
      }
    }
  }

  // ---------------------------------------------------------------- authority

  /** `validOptionalPort`: nothing, or ':' followed by decimal digits only (possibly none). */
  predicate ValidOptionalPort(port: string)
  {
    port == "" || (port[0] == ':' && forall k :: 1 <= k < |port| ==> IsDigit(port[k]))
  }

  /** Every character after the last ':' is a decimal digit (true of a host without ':'). */
  predicate DecimalAfterLastColon(host: string)
  {
    forall j :: 0 <= j < |host| && ':' in host[..j] && ':' !in host[j..] ==> IsDigit(host[j])
  }

  /** A position lies after the last ':' exactly when some ':' precedes it and none follows. */
  lemma AfterLastColon(host: string, j: nat)
    requires ':' in host && j < |host|
    ensures (':' in host[..j] && ':' !in host[j..]) <==> LastIndexOf(host, ':').value < j
  {
    var i := LastIndexOf(host, ':').value;
    if j <= i {
      assert host[j..][i - j] == ':';
    } else {
      assert host[..j][i] == ':';
      assert host[j..] == host[i + 1..][j - i - 1..];
    }
  }

  /** With a ':' present, the digits rule is about the positions after the last one. */
  lemma DecimalAfterLastColonAt(host: string)
    requires ':' in host
    ensures DecimalAfterLastColon(host) <==>
      forall j :: LastIndexOf(host, ':').value < j < |host| ==> IsDigit(host[j])
  {
    forall j | 0 <= j < |host|
      ensures (':' in host[..j] && ':' !in host[j..]) <==> LastIndexOf(host, ':').value < j
    {
      AfterLastColon(host, j);
    }
  }

  /** The text from a ':' at `i` is a valid optional port exactly when only digits follow `i`. */
  lemma PortFrom(host: string, i: nat)
    requires i < |host| && host[i] == ':'
    ensures ValidOptionalPort(host[i..]) <==> forall j :: i < j < |host| ==> IsDigit(host[j])
  {
    var port := host[i..];
    assert forall j :: i < j < |host| ==> port[j - i] == host[j];
    assert forall k :: 1 <= k < |port| ==> port[k] == host[i + k];
  }

  lemma LastColonPort(host: string)
    ensures DecimalAfterLastColon(host) <==> (':' !in host || ValidOptionalPort(host[LastIndexOf(host, ':').value..]))
  {
    if ':' in host {
      DecimalAfterLastColonAt(host);
      PortFrom(host, LastIndexOf(host, ':').value);
    } else {
      forall j | 0 <= j < |host| ensures ':' !in host[..j] {
        assert host[..j] <= host;
      }
    }
  }

  /** `parseHost`: a host that starts with '[' needs a last ']' followed by an optional port; any
      other host's optional port is what follows its last ':'. The characters and escapes are then
      checked under the host rules. The address inside brackets and its zone are not checked. */
  function ParseHost(host: string): (r: Result<string>)
    ensures r.Ok? ==> r.value == host && WellEscaped(host, true)
    ensures HasPrefix(host, "[") && ']' !in host ==> r == Err(Fail("missing ']' in host"))
    ensures HasPrefix(host, "[") && ']' in host ==>
      (r.Ok? <==> ValidOptionalPort(host[LastIndexOf(host, ']').value + 1..]) && WellEscaped(host, true))
    ensures !HasPrefix(host, "[") ==> (r.Ok? <==> DecimalAfterLastColon(host) && WellEscaped(host, true))
  {
    if HasPrefix(host, "[") then BracketedHost(host) else PlainHost(host)
  }

  function BracketedHost(host: string): (r: Result<string>)
    ensures r.Ok? ==> r.value == host && WellEscaped(host, true)
    ensures ']' !in host ==> r == Err(Fail("missing ']' in host"))
    ensures ']' in host ==>
      (r.Ok? <==> ValidOptionalPort(host[LastIndexOf(host, ']').value + 1..]) && WellEscaped(host, true))
  {
    match LastIndexOf(host, ']')
    case None => Err(Fail("missing ']' in host"))
    case Some(i) =>
      var colonPort := host[i + 1..];
      if !ValidOptionalPort(colonPort) then Err(Fail("invalid port \"" + colonPort + "\" after host"))
      else HostEscapes(host)
  }

  function PlainHost(host: string): (r: Result<string>)
    ensures r.Ok? ==> r.value == host && WellEscaped(host, true)
    ensures r.Ok? <==> DecimalAfterLastColon(host) && WellEscaped(host, true)
  {
    LastColonPort(host);
    match LastIndexOf(host, ':')
    case Some(i) =>
      var colonPort := host[i..];
      if !ValidOptionalPort(colonPort) then Err(Fail("invalid port \"" + colonPort + "\" after host"))
      else HostEscapes(host)
    case None => HostEscapes(host)
  }

  function HostEscapes(host: string): (r: Result<string>)
    ensures r.Ok? <==> WellEscaped(host, true)
    ensures r.Ok? ==> r.value == host
  {
    match Unescape(host, true)
    case Err(e) => Err(e)
    case Ok(_) => Ok(host)
  }

  /** `validUserinfo`: letters, digits and "-._:~!$&'()*+,;=%@" only. */
  predicate ValidUserinfo(s: string)
  {
    forall k :: 0 <= k < |s| ==> IsLetter(s[k]) || IsDigit(s[k]) || s[k] in "-._:~!$&'()*+,;=%@"
  }

  /** `parseAuthority`: the host is what follows the last '@' and is checked first; the user info
      before it must hold only its allowed characters, and its name and password well-formed escapes. */
  function ParseAuthority(authority: string): (r: Result<()>)
    ensures ParseHost(HostPart(authority)).Err? ==> r == Err(ParseHost(HostPart(authority)).error)
    ensures '@' !in authority ==> (r.Ok? <==> ParseHost(HostPart(authority)).Ok?)
    ensures '@' in authority ==> var i := LastIndexOf(authority, '@').value;
      r.Ok? <==> ParseHost(HostPart(authority)).Ok? && ValidUserinfo(authority[..i]) && WellEscaped(authority[..i], false)
  {
    match ParseHost(HostPart(authority))
    case Err(e) => Err(e)
    case Ok(_) =>
      match LastIndexOf(authority, '@')
      case None => Ok(())
      case Some(i) => ParseUserinfo(authority[..i])
  }

  /** The host of an authority: what follows its last '@', or all of it. */
  function HostPart(authority: string): (host: string)
    ensures '@' !in authority ==> host == authority
    ensures '@' in authority ==> host == authority[LastIndexOf(authority, '@').value + 1..]
  {
    match LastIndexOf(authority, '@')
    case None => authority
    case Some(i) => authority[i + 1..]
  }

  /** The user info part of `parseAuthority`: its characters, then the escapes of the name and the
      password around the first ':'. */
  function ParseUserinfo(userinfo: string): (r: Result<()>)
    ensures r.Ok? <==> ValidUserinfo(userinfo) && WellEscaped(userinfo, false)
    ensures !ValidUserinfo(userinfo) ==> r == Err(Fail("net/url: invalid userinfo"))
  {
    if !ValidUserinfo(userinfo) then Err(Fail("net/url: invalid userinfo"))
    else if ':' !in userinfo then Unescape(userinfo, false)
    else
      var (name, password, _) := Cut(userinfo, ':');
      SplitAtColonEscapes(userinfo);
      match Unescape(name, false)
      case Err(e) => Err(e)
      case Ok(_) => Unescape(password, false)
  }

  /** Go's `url.Parse`, for the checks listed above. Errors carry Go's `parse "<url>": ` framing
      (without the quoting of special characters); an error in the fragment names the whole URL. */
  function Parse(raw: string): (r: Result<Url>)
    ensures r.Ok? && r.value.scheme != "" ==> ':' in raw && IsLetter(raw[0])
    ensures raw != [] && raw[0] == ':' ==> r.Err?
    ensures (exists k :: 0 <= k < |raw| && IsControl(raw[k]) && '#' !in raw[..k]) ==> r.Err?
    ensures r.Ok? ==> WellEscaped(r.value.path, false) && WellEscaped(r.value.fragment, false)
    ensures r.Ok? && r.value.authority.Some? ==> ParseAuthority(r.value.authority.value).Ok?
  {
    var (u, frag, _) := Cut(raw, '#');
    match ParseWithoutFragment(u)
    case Err(e) => Err(Fail("parse \"" + u + "\": " + e.msg))
    case Ok(url) =>
      if frag == "" then Ok(url)
      else
        match Unescape(frag, false)
        case Err(e) => Err(Fail("parse \"" + raw + "\": " + e.msg))
        case Ok(_) => Ok(url.(fragment := frag))
  }

  function ParseWithoutFragment(u: string): (r: Result<Url>)
    ensures r.Ok? && r.value.scheme != "" ==> ':' in u && IsLetter(u[0])
    ensures u != [] && u[0] == ':' ==> r.Err?
    ensures (exists k :: 0 <= k < |u| && IsControl(u[k])) ==> r.Err?
    ensures r.Ok? ==> WellEscaped(r.value.path, false) && r.value.fragment == ""
    ensures r.Ok? && r.value.authority.Some? ==> ParseAuthority(r.value.authority.value).Ok?
  {
    if exists k :: 0 <= k < |u| && IsControl(u[k]) then Err(Fail("net/url: invalid control character in URL"))
    else if u == "*" then
      assert EscapeOk("*", 0, false);
      Ok(Url("", "", None, "*", "", ""))
    else
      match GetScheme(u, 0)
      case Err(e) => Err(e)
      case Ok((scheme0, afterScheme)) =>
        assert scheme0 != "" ==> u[|scheme0|] == ':';
        var (rest, rawQuery, _) := Cut(afterScheme, '?');
        ParseRest(Lower(scheme0), rest, rawQuery)
  }

  /** What follows the scheme and precedes the query: text after a scheme that does not start with
      a slash (kept as `rest`), a colon in a first relative segment (refused), "//authority/path",
      or a path. */
  function ParseRest(scheme: string, rest: string, rawQuery: string): (r: Result<Url>)
    ensures r.Ok? ==> r.value.scheme == scheme && WellEscaped(r.value.path, false) && r.value.fragment == ""
    ensures r.Ok? && r.value.authority.Some? ==> ParseAuthority(r.value.authority.value).Ok?
  {
    if !HasPrefix(rest, "/") && scheme != "" then
      Ok(Url(scheme, rest, None, "", rawQuery, ""))
    else if !HasPrefix(rest, "/") && ':' in Cut(rest, '/').0 then
      Err(Fail("first path segment in URL cannot contain colon"))
    else if (scheme != "" || !HasPrefix(rest, "///")) && HasPrefix(rest, "//") then
      ParseAuthorityPath(scheme, rest[2..], rawQuery)
    else
      match Unescape(rest, false)
      case Err(e) => Err(e)
      case Ok(_) => Ok(Url(scheme, "", None, rest, rawQuery, ""))
  }

  /** "authority/path": the authority ends at the first '/', and is checked before the path. */
  function ParseAuthorityPath(scheme: string, rest: string, rawQuery: string): (r: Result<Url>)
    ensures var (authority, tail, hasPath) := Cut(rest, '/'); var path := if hasPath then "/" + tail else "";
      && (ParseAuthority(authority).Err? ==> r == Err(ParseAuthority(authority).error))
      && (ParseAuthority(authority).Ok? && Unescape(path, false).Err? ==> r == Err(Unescape(path, false).error))
      && (r.Ok? <==> ParseAuthority(authority).Ok? && WellEscaped(path, false))
      && (r.Ok? ==> r.value == Url(scheme, "", Some(authority), path, rawQuery, ""))
  {
    var (authority, tail, hasPath) := Cut(rest, '/');
    var path := if hasPath then "/" + tail else "";
    match ParseAuthority(authority)
    case Err(e) => Err(e)
    case Ok(_) =>
      match Unescape(path, false)
      case Err(e) => Err(e)
      case Ok(_) => Ok(Url(scheme, "", Some(authority), path, rawQuery, ""))
  }

  /** A scheme of letters followed by ':' is read as that scheme, whatever follows. */
  lemma {:induction false} LetterScheme(scheme: string, rest: string, i: nat)
    requires scheme != [] && i <= |scheme| && forall k :: 0 <= k < |scheme| ==> IsLetter(scheme[k])
    ensures GetScheme(scheme + ":" + rest, i) == Ok((scheme, rest))
    decreases |scheme| - i
  {
    var s := scheme + ":" + rest;
    if i < |scheme| {
      assert s[i] == scheme[i];
      LetterScheme(scheme, rest, i + 1);
    } else {
      assert s[i] == ':' && s[..i] == scheme && s[i + 1..] == rest;
    }
  }

  /** Without a '#', `Parse` accepts exactly what `ParseWithoutFragment` accepts, with the same URL. */
  lemma WithoutFragment(raw: string)
    requires '#' !in raw
    ensures Parse(raw).Ok? <==> ParseWithoutFragment(raw).Ok?
    ensures Parse(raw).Ok? ==> Parse(raw) == ParseWithoutFragment(raw)
  {
  }

  /** A letters-only scheme, no '?' and no control characters: what follows the ':' is the rest. */
  lemma SchemeThenRest(scheme: string, afterScheme: string)
    requires scheme != [] && forall k :: 0 <= k < |scheme| ==> IsLetter(scheme[k])
    requires '?' !in afterScheme
    requires var u := scheme + ":" + afterScheme; forall k :: 0 <= k < |u| ==> !IsControl(u[k])
    ensures ParseWithoutFragment(scheme + ":" + afterScheme) == ParseRest(Lower(scheme), afterScheme, "")
  {
    var u := scheme + ":" + afterScheme;
    LetterScheme(scheme, afterScheme, 0);
    assert u[|scheme|] == ':';
  }

  /** A rest that starts with "//" after a scheme is an authority and a path. */
  lemma RestWithAuthority(scheme: string, rest: string)
    requires scheme != "" && HasPrefix(rest, "//")
    ensures ParseRest(scheme, rest, "") == ParseAuthorityPath(scheme, rest[2..], "")
  {
    assert HasPrefix(rest, "/");
  }

  /** Where "scheme://authority/path" goes: in a URL without '#', '?' or control characters whose
      scheme is letters only, the text after "//" is parsed as an authority and a path. */
  lemma HierarchicalUrl(scheme: string, authority: string, path: string)
    requires scheme != [] && forall k :: 0 <= k < |scheme| ==> IsLetter(scheme[k])
    requires var raw := scheme + "://" + authority + path;
      '#' !in raw && '?' !in raw && forall k :: 0 <= k < |raw| ==> !IsControl(raw[k])
    ensures var raw := scheme + "://" + authority + path;
      && (Parse(raw).Ok? <==> ParseAuthorityPath(Lower(scheme), authority + path, "").Ok?)
      && (Parse(raw).Ok? ==> Parse(raw) == ParseAuthorityPath(Lower(scheme), authority + path, ""))
  {
    var raw := scheme + "://" + authority + path;
    var afterScheme := "//" + authority + path;
    SplitAfterScheme(scheme, authority, path);
    WithoutFragment(raw);
    SchemeThenRest(scheme, afterScheme);
    RestWithAuthority(Lower(scheme), afterScheme);
  }

  lemma SplitAfterScheme(scheme: string, authority: string, path: string)
    requires scheme != []
    requires '?' !in scheme + "://" + authority + path
    ensures var afterScheme := "//" + authority + path;
      && scheme + "://" + authority + path == scheme + ":" + afterScheme
      && '?' !in afterScheme && afterScheme != "*" && HasPrefix(afterScheme, "//")
      && afterScheme[2..] == authority + path && Lower(scheme) != ""
  {
    var raw := scheme + "://" + authority + path;
    var afterScheme := "//" + authority + path;
    assert raw == scheme + ":" + afterScheme;
    assert forall k :: 0 <= k < |afterScheme| ==> afterScheme[k] == raw[|scheme| + 1 + k];
    assert afterScheme[..2] == "//";
  }

  /** Cutting "authority/path" at its first '/' gives back the authority and the path. */
  lemma AuthorityAndPath(authority: string, path: string)
    requires '/' !in authority && (path == [] || path[0] == '/')
    ensures var (a, tail, hasPath) := Cut(authority + path, '/');
      a == authority && (if hasPath then "/" + tail else "") == path
  {
    if path != [] {
      assert authority + path == authority + ['/'] + path[1..];
      CutAtFirst(authority, '/', path[1..]);
      assert "/" + path[1..] == path;
    } else {
      assert authority + path == authority;
    }
  }

  /** Go refuses a port that is not decimal, as in "http://h:abc". */
  lemma RefusesBadPort(scheme: string, host: string, path: string)
    requires scheme != [] && forall k :: 0 <= k < |scheme| ==> IsLetter(scheme[k])
    requires '/' !in host && '@' !in host && !HasPrefix(host, "[") && (path == [] || path[0] == '/')
    requires var raw := scheme + "://" + host + path;
      '#' !in raw && '?' !in raw && forall k :: 0 <= k < |raw| ==> !IsControl(raw[k])
    requires !DecimalAfterLastColon(host)
    ensures Parse(scheme + "://" + host + path).Err?
  {
    HierarchicalUrl(scheme, host, path);
    AuthorityAndPath(host, path);
  }

  /** Go refuses an escape that is not two hex digits, as in "http://h/%zz". */
  lemma RefusesBadEscape(scheme: string, authority: string, path: string)
    requires scheme != [] && forall k :: 0 <= k < |scheme| ==> IsLetter(scheme[k])
    requires '/' !in authority && ParseAuthority(authority).Ok? && (path == [] || path[0] == '/')
    requires var raw := scheme + "://" + authority + path;
      '#' !in raw && '?' !in raw && forall k :: 0 <= k < |raw| ==> !IsControl(raw[k])
    requires !WellEscaped(path, false)
    ensures Parse(scheme + "://" + authority + path).Err?
  {
    HierarchicalUrl(scheme, authority, path);
    AuthorityAndPath(authority, path);
  }

  /** `raw` holds the characters of `text`, position by position. The examples below are stated
      this way, rather than as `raw == text`, so that the verifier reasons about the parse through
      the general lemmas instead of evaluating it on the literal. */
  predicate Spells(raw: string, text: string)
  {
    |raw| == |text| && forall k :: 0 <= k < |raw| ==> raw[k] == text[k]
  }

  /** What the examples below share: `raw` has "http://" and then text without '#', '?' or control
      characters, so it is "http", "://" and what follows, split anywhere. */
  lemma HttpPrefix(raw: string, text: string, a: nat)
    requires Spells(raw, text) && 7 <= a <= |raw|
    requires text[..7] == "http://" && forall k :: 0 <= k < |text| ==> 'a' <= text[k] <= 'z' || text[k] in ":/%"
    ensures raw == raw[..4] + "://" + raw[7..a] + raw[a..]
    ensures raw[..4] != [] && forall k :: 0 <= k < 4 ==> IsLetter(raw[..4][k])
    ensures '#' !in raw && '?' !in raw && forall k :: 0 <= k < |raw| ==> !IsControl(raw[k])
  {
    assert forall k :: 0 <= k < 7 ==> raw[k] == text[..7][k];
    assert raw[..4] + "://" + raw[7..a] + raw[a..] == raw[..7] + raw[7..a] + raw[a..];
    assert raw[..7] + raw[7..a] + raw[a..] == raw;
    forall k | 0 <= k < |raw| ensures raw[k] != '#' && raw[k] != '?' && !IsControl(raw[k]) {
      assert raw[k] == text[k];
    }
  }

  /** "http://h:abc" is refused for its port. */
  lemma BadPortExample(raw: string)
    requires Spells(raw, "http://h:abc")
    ensures Parse(raw).Err?
  {
    var text := "http://h:abc";
    assert text[..7] == "http://";
    HttpPrefix(raw, text, |raw|);
    var host := raw[7..];
    assert raw == raw[..4] + "://" + host + "";
    assert host[0] == text[7] && host[1] == text[8] && host[2] == text[9];
    assert host[..2][1] == ':';
    forall j | 2 <= j < |host| ensures host[j] != ':' && host[j] != '/' && host[j] != '@' {
      assert host[j] == text[7 + j];
    }
    assert ':' in host[..2] && ':' !in host[2..] && !IsDigit(host[2]);
    assert host[0] == 'h' && host[1] == ':';
    assert '/' !in host && '@' !in host;
    RefusesBadPort(raw[..4], host, "");
  }

  /** "http://h/%zz" is refused for its escape. */
  lemma BadEscapeExample(raw: string)
    requires Spells(raw, "http://h/%zz")
    ensures Parse(raw).Err?
  {
    var text := "http://h/%zz";
    assert text[..7] == "http://";
    HttpPrefix(raw, text, 8);
    var authority, path := raw[7..8], raw[8..];
    assert authority[0] == text[7] && path[0] == text[8] && path[1] == text[9] && path[2] == text[10];
    assert !EscapeOk(path, 1, false);
    LetterAuthority(authority);
    RefusesBadEscape(raw[..4], authority, path);
  }

  /** A one-letter authority is a host that is accepted. */
  lemma LetterAuthority(authority: string)
    requires |authority| == 1 && IsLetter(authority[0])
    ensures ParseAuthority(authority).Ok?
  {
    assert '@' !in authority && ':' !in authority && !HasPrefix(authority, "[");
    assert EscapeOk(authority, 0, true);
    LastColonPort(authority);
  }
}

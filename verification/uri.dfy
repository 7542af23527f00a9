/** The part of `URI.parse` that a URL generator reads from its template:
    scheme, host, port and path, for the two forms templates take: a path
    ("/test/:id") or an absolute URL ("http://localhost:8080/test/:id"). */
module Uri {
  import opened Wrappers
  import opened Text

  datatype Uri = Uri(scheme: Option<string>, host: Option<string>, port: Option<nat>, path: string)

  predicate IsLetter(c: char) {
    'a' <= c <= 'z' || 'A' <= c <= 'Z'
  }

  predicate IsSchemeChar(c: char) {
    IsLetter(c) || IsDigit(c) || c == '+' || c == '-' || c == '.'
  }

  /** Length of the run of scheme characters at the start of t. */
  function SchemeLength(t: string): (n: nat)
    ensures n <= |t|
    ensures forall i :: 0 <= i < n ==> IsSchemeChar(t[i])
    ensures n < |t| ==> !IsSchemeChar(t[n])
  {
    if t == [] || !IsSchemeChar(t[0]) then 0 else 1 + SchemeLength(t[1..])
  }

  /** Index of the first c in t, or |t| when there is none. */
  function IndexOf(t: string, c: char): (i: nat)
    ensures i <= |t|
    ensures forall j :: 0 <= j < i ==> t[j] != c
    ensures i < |t| ==> t[i] == c
  {
    if t == [] then 0 else if t[0] == c then 0 else 1 + IndexOf(t[1..], c)
  }

  /** The port a scheme implies when the URL names none. */
  function DefaultPort(scheme: Option<string>): Option<nat> {
    if scheme == Some("http") then Some(80)
    else if scheme == Some("https") then Some(443)
    else None
  }

  /** `host[:port]` up to the first slash, then the path. */
  function Authority(scheme: Option<string>, rest: string): Uri {
    var k := IndexOf(rest, '/');
    var auth := rest[..k];
    var c := IndexOf(auth, ':');
    if c < |auth| && auth[c + 1..] != "" && AllDigits(auth[c + 1..]) then
      Uri(scheme, Some(auth[..c]), Some(ValueIn(10, auth[c + 1..])), rest[k..])
    else if c < |auth| && auth[c + 1..] == "" then
      Uri(scheme, Some(auth[..c]), DefaultPort(scheme), rest[k..])
    else
      Uri(scheme, Some(auth), DefaultPort(scheme), rest[k..])
  }

  /** URI.parse(template). */
  function ParseTemplate(t: string): (u: Uri)
    ensures u.host.None? ==> u == Uri(None, None, None, t)
    ensures u.port.Some? ==> u.host.Some?
    ensures |u.path| <= |t|
  {
    var n := SchemeLength(t);
    if n > 0 && IsLetter(t[0]) && "://" <= t[n..] then Authority(Some(t[..n]), t[n + 3..])
    else if "//" <= t then Authority(None, t[2..])
    else Uri(None, None, None, t)
  }

  /** A template that is a path, however many colons it holds, has no
      scheme, host or port and is its own path. */
  lemma {:induction false} PathTemplate(t: string)
    requires t != "" && t[0] == '/' && !("//" <= t)
    ensures ParseTemplate(t) == Uri(None, None, None, t)
  {
    assert !IsSchemeChar(t[0]);
  }

  predicate IsHostText(h: string) {
    forall i :: 0 <= i < |h| ==> h[i] != '/' && h[i] != ':'
  }

  predicate IsSchemeText(s: string) {
    s != "" && IsLetter(s[0]) && forall i :: 0 <= i < |s| ==> IsSchemeChar(s[i])
  }

  lemma {:induction false} SchemeSplit(s: string, rest: string)
    requires (forall i :: 0 <= i < |s| ==> IsSchemeChar(s[i])) && "://" <= rest
    ensures SchemeLength(s + rest) == |s|
    ensures (s + rest)[..|s|] == s && (s + rest)[|s|..] == rest
  {
    if s != [] {
      SchemeSplit(s[1..], rest);
      assert (s + rest)[1..] == s[1..] + rest;
    }
  }

  lemma {:induction false} IndexOfIs(t: string, c: char, k: nat)
    requires k <= |t| && (forall j :: 0 <= j < k ==> t[j] != c) && (k < |t| ==> t[k] == c)
    ensures IndexOf(t, c) == k
  {
  }

  lemma {:induction false} AuthorityWithPort(scheme: Option<string>, host: string, digits: string, path: string)
    requires IsHostText(host) && digits != "" && AllDigits(digits)
    requires path == "" || path[0] == '/'
    ensures Authority(scheme, host + ":" + digits + path) ==
              Uri(scheme, Some(host), Some(ValueIn(10, digits)), path)
  {
    var rest := host + ":" + digits + path;
    var k := |host| + 1 + |digits|;
    assert forall j :: 0 <= j < k ==> rest[j] != '/';
    IndexOfIs(rest, '/', k);
    var auth := rest[..k];
    assert auth == host + ":" + digits;
    IndexOfIs(auth, ':', |host|);
    assert auth[|host| + 1..] == digits;
    assert auth[..|host|] == host;
    assert rest[k..] == path;
  }

  lemma {:induction false} AuthorityWithoutPort(scheme: Option<string>, host: string, path: string)
    requires IsHostText(host)
    requires path == "" || path[0] == '/'
    ensures Authority(scheme, host + path) == Uri(scheme, Some(host), DefaultPort(scheme), path)
  {
    var rest := host + path;
    assert forall j :: 0 <= j < |host| ==> rest[j] != '/';
    IndexOfIs(rest, '/', |host|);
    assert rest[..|host|] == host;
    IndexOfIs(host, ':', |host|);
    assert rest[|host|..] == path;
  }

  lemma {:induction false} SchemeAbsolute(scheme: string, rest: string)
    requires IsSchemeText(scheme)
    ensures ParseTemplate(scheme + "://" + rest) == Authority(Some(scheme), rest)
  {
    var t := scheme + "://" + rest;
    assert t == scheme + ("://" + rest);
    SchemeSplit(scheme, "://" + rest);
    assert t[|scheme| + 3..] == rest;
  }

  /** Parsing `scheme://host:port/path` gives back its four parts. */
  lemma {:induction false} AbsoluteTemplate(scheme: string, host: string, digits: string, path: string)
    requires IsSchemeText(scheme) && IsHostText(host) && digits != "" && AllDigits(digits)
    requires path == "" || path[0] == '/'
    ensures ParseTemplate(scheme + "://" + host + ":" + digits + path) ==
              Uri(Some(scheme), Some(host), Some(ValueIn(10, digits)), path)
  {
    var rest := host + ":" + digits + path;
    Regroup(scheme + "://", host, ":", digits, path);
    SchemeAbsolute(scheme, rest);
    AuthorityWithPort(Some(scheme), host, digits, path);
  }

  lemma {:induction false} Regroup(a: string, b: string, c: string, d: string, e: string)
    ensures a + b + c + d + e == a + (b + c + d + e)
  {
  }

  /** Parsing `scheme://host/path` takes the scheme's default port. */
  lemma {:induction false} AbsoluteTemplateDefaultPort(scheme: string, host: string, path: string)
    requires IsSchemeText(scheme) && IsHostText(host)
    requires path == "" || path[0] == '/'
    ensures ParseTemplate(scheme + "://" + host + path) ==
              Uri(Some(scheme), Some(host), DefaultPort(Some(scheme)), path)
  {
    SchemeAbsolute(scheme, host + path);
    AuthorityWithoutPort(Some(scheme), host, path);
    Regroup3(scheme + "://", host, path);
  }

  lemma {:induction false} Regroup3(a: string, b: string, c: string)
    ensures a + b + c == a + (b + c)
  {
  }

  /** Parsing `http://host/path`: http with its default port 80. */
  lemma {:induction false} HttpTemplate(host: string, path: string, t: string)
    requires IsHostText(host) && (path == "" || path[0] == '/')
    requires t == "http://" + host + path
    ensures ParseTemplate(t) == Uri(Some("http"), Some(host), Some(80), path)
  {
    assert IsSchemeText("http");
    AbsoluteTemplateDefaultPort("http", host, path);
    assert "http" + "://" == "http://";
  }

  // ----- the port part of generated URLs -----

  /** The port part as url_generation.rb writes it: the parsed port is an
      Integer and is compared with the Strings '80' and '443', so the
      comparison never finds them equal and the port is always shown for
      http and https, and for URLs without a scheme. */
  function PortPartAsWritten(scheme: Option<string>, port: Option<nat>): (r: Option<string>)
    ensures r.Some? <==> port.Some? && (scheme.None? || scheme == Some("http") || scheme == Some("https"))
  {
    if port.Some? && (scheme.None? || scheme == Some("http") || scheme == Some("https")) then
      Some(":" + NatToString(port.value))
    else None
  }

  /** The port part as evidently intended: shown unless it is the default
      port of http or https (and never for other schemes). */
  function PortPart(scheme: Option<string>, port: Option<nat>): (r: Option<string>)
    ensures r.Some? <==>
              port.Some? && (scheme.None? || ((scheme == Some("http") || scheme == Some("https")) && port != DefaultPort(scheme)))
    ensures r.Some? ==> r.value == ":" + NatToString(port.value)
  {
    if port.Some? && (scheme.None? || (scheme == Some("http") && port.value != 80) ||
                      (scheme == Some("https") && port.value != 443)) then
      Some(":" + NatToString(port.value))
    else None
  }

  lemma {:induction false} EightyText()
    ensures NatToString(80) == "80"
  {
    assert NatToString(8) == [DigitChar(8)] == "8";
    assert NatToString(80) == NatToString(8) + [DigitChar(0)];
  }

  lemma {:induction false} FourFortyThreeText()
    ensures NatToString(443) == "443"
  {
    assert NatToString(4) == [DigitChar(4)] == "4";
    assert NatToString(44) == NatToString(4) + [DigitChar(4)];
    assert NatToString(443) == NatToString(44) + [DigitChar(3)];
  }

  /** As written, a plain http URL gets ":80": http://localhost/test is
      generated as http://localhost:80/test. */
  lemma {:induction false} DefaultPortShownAsWritten(host: string, path: string)
    requires IsHostText(host) && (path == "" || path[0] == '/')
    ensures var u := ParseTemplate("http://" + host + path);
            PortPartAsWritten(u.scheme, u.port) == Some(":80")
  {
    HttpTemplate(host, path, "http://" + host + path);
    EightyText();
    assert ":" + "80" == ":80";
  }

  /** With the intended comparison, the same URL has no port part. */
  lemma {:induction false} DefaultPortHidden(host: string, path: string)
    requires IsHostText(host) && (path == "" || path[0] == '/')
    ensures var u := ParseTemplate("http://" + host + path);
            PortPart(u.scheme, u.port) == None
  {
    HttpTemplate(host, path, "http://" + host + path);
  }

  /** The intended port part hides exactly the scheme's default port, and
      agrees with the code as written on every other port. */
  lemma {:induction false} PortPartHidesDefault(scheme: Option<string>, port: Option<nat>)
    ensures port.Some? && port == DefaultPort(scheme) ==> PortPart(scheme, port).None?
    ensures port != DefaultPort(scheme) ==> PortPart(scheme, port) == PortPartAsWritten(scheme, port)
  {
  }
}

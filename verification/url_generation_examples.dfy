/** The generation cases of the URL generation tests, as facts about the
    model. */
module UrlGenerationExamples {
  import opened Wrappers
  import opened Text
  import opened RubyHash
  import opened Uri
  import opened UrlGeneration

  lemma {:induction false} WordLengthAll(name: string)
    requires forall i :: 0 <= i < |name| ==> IsWordChar(name[i])
    ensures WordLength(name) == |name|
  {
  }

  /** A template ending in a placeholder. */
  lemma {:induction false} TokenizeLast(name: string)
    requires name != "" && forall i :: 0 <= i < |name| ==> IsWordChar(name[i])
    ensures Tokenize(":" + name) == [Placeholder(name)]
  {
    var t := ":" + name;
    assert t[1..] == name;
    WordLengthAll(name);
    assert t[1..1 + |name|] == name;
    assert t[1 + |name|..] == [];
  }

  /** A character other than a colon stands for itself. */
  lemma {:induction false} TokenizeChar(c: char, rest: string)
    requires c != ':'
    ensures Tokenize([c] + rest) == [Chr(c)] + Tokenize(rest)
  {
    assert ([c] + rest)[1..] == rest;
  }

  lemma {:induction false} OnePlaceholder(front: string, name: string)
    requires forall i :: 0 <= i < |front| ==> front[i] != ':'
    requires name != "" && forall i :: 0 <= i < |name| ==> IsWordChar(name[i])
    ensures Tokenize(front + ":" + name) == Chrs(front) + [Placeholder(name)]
  {
    if front == [] {
      TokenizeLast(name);
      assert front + ":" + name == ":" + name;
    } else {
      OnePlaceholder(front[1..], name);
      TokenizeChar(front[0], front[1..] + ":" + name);
      assert front + ":" + name == [front[0]] + (front[1..] + ":" + name);
    }
  }

  function Chrs(s: string): (ts: seq<Token>)
    ensures |ts| == |s| && Names(ts) == []
  {
    if s == [] then [] else [Chr(s[0])] + Chrs(s[1..])
  }

  lemma {:induction false} GetOther(k: string, v: string, name: string)
    requires k != name
    ensures Get([(k, v)], name) == None && Delete([(k, v)], name) == [(k, v)]
  {
    assert [(k, v)][1..] == [];
  }

  lemma {:induction false} QueryOfOne(path: string, k: string, v: string)
    ensures WithQuery(path, Some([(k, v)])) == path + "?" + k + "=" + v
  {
    assert BuildQuery([(k, v)]) == k + "=" + v;
    assert path + "?" + (k + "=" + v) == path + "?" + k + "=" + v;
  }

  /** A template with no colon is all characters. */
  lemma {:induction false} TokenizeNoColon(s: string)
    requires forall i :: 0 <= i < |s| ==> s[i] != ':'
    ensures Tokenize(s) == Chrs(s)
  {
    if s != [] {
      TokenizeNoColon(s[1..]);
      TokenizeChar(s[0], s[1..]);
      assert [s[0]] + s[1..] == s;
    }
  }

  /** Characters are copied through, whatever the options and arguments. */
  lemma {:induction false} FillChrs(s: string, rest: seq<Token>, o: Option<Hash>, d: Option<Hash>, args: seq<string>)
    ensures Fill(Chrs(s) + rest, o, d, args) == Prepend(s, Fill(rest, o, d, args))
  {
    if s == [] {
      assert Chrs(s) + rest == rest;
      PrependEmpty(Fill(rest, o, d, args));
    } else {
      var ts := Chrs(s) + rest;
      assert ts[0] == Chr(s[0]);
      assert ts == [Chr(s[0])] + (Chrs(s[1..]) + rest);
      FillChr(s[0], Chrs(s[1..]) + rest, o, d, args);
      FillChrs(s[1..], rest, o, d, args);
      PrependTwice([s[0]], s[1..], Fill(rest, o, d, args));
      assert [s[0]] + s[1..] == s;
    }
  }

  lemma {:induction false} FillChr(c: char, rest: seq<Token>, o: Option<Hash>, d: Option<Hash>, args: seq<string>)
    ensures Fill([Chr(c)] + rest, o, d, args) == Prepend([c], Fill(rest, o, d, args))
  {
    assert ([Chr(c)] + rest)[1..] == rest;
  }

  lemma {:induction false} FillLast(name: string, o: Option<Hash>, d: Option<Hash>, args: seq<string>)
    requires Take(name, o, d, args).Success?
    ensures var t := Take(name, o, d, args).value;
            Fill([Placeholder(name)], o, d, args) == Success(Filled(t.0, t.1, t.2))
  {
    var t := Take(name, o, d, args).value;
    assert [Placeholder(name)][1..] == [];
    assert t.0 + "" == t.0;
  }

  predicate IsName(name: string) {
    name != "" && forall i :: 0 <= i < |name| ==> IsWordChar(name[i])
  }

  predicate NoColon(s: string) {
    forall i :: 0 <= i < |s| ==> s[i] != ':'
  }

  /** The start of a path template: a slash, not followed by another. */
  predicate IsPathFront(front: string) {
    front != "" && front[0] == '/' && (|front| > 1 ==> front[1] != '/') && NoColon(front)
  }

  /** A template `front:name` takes one value for its placeholder and
      appends the options left over. */
  lemma {:induction false} ExpandOne(g: Generator, front: string, name: string, args: seq<string>, opts: Option<Hash>)
    requires g.template == front + ":" + name && NoColon(front) && IsName(name)
    ensures var t := Take(name, OptsFor(g.defaults, opts), g.defaults, args);
            (t.Success? ==> g.Expand(args, opts) == Success(WithQuery(front + t.value.0, t.value.1))) &&
            (t.Failure? ==> g.Expand(args, opts) == Failure(MissingVariable(name)))
  {
    var o := OptsFor(g.defaults, opts);
    var t := Take(name, o, g.defaults, args);
    OnePlaceholder(front, name);
    FillChrs(front, [Placeholder(name)], o, g.defaults, args);
    if t.Success? {
      FillLast(name, o, g.defaults, args);
    } else {
      assert [Placeholder(name)][1..] == [];
    }
  }

  /** A template that is a path keeps it all as the generator's template. */
  lemma {:induction false} PathGenerator(front: string, name: string, defaults: Option<Hash>)
    requires IsPathFront(front) && IsName(name)
    ensures NewGenerator(front + ":" + name, defaults).template == front + ":" + name
    ensures NewGenerator(front + ":" + name, defaults).defaults == defaults
  {
    var t := front + ":" + name;
    assert t[0] == '/' && t[1] != '/';
    PathTemplate(t);
  }

  /** '/test/:id' with 123 gives '/test/123': a positional argument fills
      the placeholder. */
  lemma {:induction false} Positional(front: string, name: string, v: string)
    requires IsPathFront(front) && IsName(name)
    ensures NewGenerator(front + ":" + name, None).Expand([v], None) == Success(front + v)
  {
    var g := NewGenerator(front + ":" + name, None);
    PathGenerator(front, name, None);
    ExpandOne(g, front, name, [v], None);
  }

  /** '/test/:id' with id: 123 gives '/test/123': the named value is used
      and removed from the options, which leaves no query string. */
  lemma {:induction false} Named(front: string, name: string, v: string)
    requires IsPathFront(front) && IsName(name)
    ensures NewGenerator(front + ":" + name, None).Expand([], Some([(name, v)])) == Success(front + v)
  {
    var g := NewGenerator(front + ":" + name, None);
    PathGenerator(front, name, None);
    ExpandOne(g, front, name, [], Some([(name, v)]));
    assert Delete([(name, v)], name) == [];
  }

  /** '/:test' with 'foo' and bar: baz gives '/foo?bar=baz'. */
  lemma {:induction false} ExtraOptionPositional(front: string, name: string, v: string, k: string, w: string)
    requires IsPathFront(front) && IsName(name) && k != name
    ensures NewGenerator(front + ":" + name, None).Expand([v], Some([(k, w)])) ==
              Success(front + v + "?" + k + "=" + w)
  {
    var g := NewGenerator(front + ":" + name, None);
    PathGenerator(front, name, None);
    GetOther(k, w, name);
    ExpandOne(g, front, name, [v], Some([(k, w)]));
    QueryOfOne(front + v, k, w);
  }

  /** '/:test' with test: 'foo' and bar: baz gives '/foo?bar=baz'. */
  lemma {:induction false} ExtraOptionNamed(front: string, name: string, v: string, k: string, w: string)
    requires IsPathFront(front) && IsName(name) && k != name
    ensures NewGenerator(front + ":" + name, None).Expand([], Some([(name, v), (k, w)])) ==
              Success(front + v + "?" + k + "=" + w)
  {
    var g := NewGenerator(front + ":" + name, None);
    PathGenerator(front, name, None);
    var h := [(name, v), (k, w)];
    assert h[1..] == [(k, w)];
    assert Delete(h, name) == Delete([(k, w)], name) == [(k, w)];
    ExpandOne(g, front, name, [], Some(h));
    QueryOfOne(front + v, k, w);
  }

  /** '/:test' registered with test: 'foo' gives '/foo': the default
      fills the placeholder and, taken from the options, leaves no query. */
  lemma {:induction false} DefaultUsed(front: string, name: string, d: string)
    requires IsPathFront(front) && IsName(name)
    ensures NewGenerator(front + ":" + name, Some([(name, d)])).Expand([], None) == Success(front + d)
  {
    var g := NewGenerator(front + ":" + name, Some([(name, d)]));
    PathGenerator(front, name, Some([(name, d)]));
    ExpandOne(g, front, name, [], None);
    assert Delete([(name, d)], name) == [];
  }

  /** ... and with test: 'baz' gives '/baz': the call's option wins. */
  lemma {:induction false} DefaultOverridden(front: string, name: string, d: string, w: string)
    requires IsPathFront(front) && IsName(name)
    ensures NewGenerator(front + ":" + name, Some([(name, d)])).Expand([], Some([(name, w)])) == Success(front + w)
  {
    var g := NewGenerator(front + ":" + name, Some([(name, d)]));
    PathGenerator(front, name, Some([(name, d)]));
    assert Store([(name, d)], name, w) == [(name, w)];
    assert Merge([(name, d)], [(name, w)]) == Merge([(name, w)], []) == [(name, w)];
    ExpandOne(g, front, name, [], Some([(name, w)]));
    assert Delete([(name, w)], name) == [];
  }

  /** '/:foo' registered with test: 'foo', given 'foo', gives
      '/foo?test=foo': a default for another name goes to the query. */
  lemma {:induction false} DefaultAsQueryPositional(front: string, name: string, v: string, k: string, d: string)
    requires IsPathFront(front) && IsName(name) && k != name
    ensures NewGenerator(front + ":" + name, Some([(k, d)])).Expand([v], None) ==
              Success(front + v + "?" + k + "=" + d)
  {
    var g := NewGenerator(front + ":" + name, Some([(k, d)]));
    PathGenerator(front, name, Some([(k, d)]));
    GetOther(k, d, name);
    ExpandOne(g, front, name, [v], None);
    QueryOfOne(front + v, k, d);
  }

  /** ... and given foo: 'foo', the same. */
  lemma {:induction false} DefaultAsQueryNamed(front: string, name: string, v: string, k: string, d: string)
    requires IsPathFront(front) && IsName(name) && k != name
    ensures NewGenerator(front + ":" + name, Some([(k, d)])).Expand([], Some([(name, v)])) ==
              Success(front + v + "?" + k + "=" + d)
  {
    var g := NewGenerator(front + ":" + name, Some([(k, d)]));
    PathGenerator(front, name, Some([(k, d)]));
    var h := [(k, d), (name, v)];
    assert Store([(k, d)], name, v) == [(k, d)] + Store([], name, v) == h;
    assert Merge([(k, d)], [(name, v)]) == Merge(h, []) == h;
    assert h[1..] == [(name, v)];
    assert Delete(h, name) == [(k, d)] + Delete([(name, v)], name) == [(k, d)];
    GetOther(k, d, name);
    assert Get(h, name) == Get([(name, v)], name) == Some(v);
    ExpandOne(g, front, name, [], Some([(name, v)]));
    QueryOfOne(front + v, k, d);
  }

  /** An http template with a port other than 80 keeps its path, host
      and port part. */
  lemma {:induction false} HttpGenerator(host: string, port: nat, front: string, name: string, defaults: Option<Hash>)
    requires IsHostText(host) && port != 80 && front != "" && front[0] == '/'
    ensures NewGenerator("http://" + host + ":" + NatToString(port) + front + ":" + name, defaults) ==
              Generator(defaults, Some(host), front + ":" + name, Some("http"), Some(":" + NatToString(port)))
  {
    var digits := NatToString(port);
    var path := front + ":" + name;
    assert IsSchemeText("http");
    assert "http://" + host + ":" + digits + front + ":" + name == "http" + "://" + host + ":" + digits + path;
    AbsoluteTemplate("http", host, digits, path);
    NatToStringValue(port);
  }

  lemma {:induction false} Assoc(a: string, b: string, c: string)
    ensures a + (b + c) == a + b + c
  {
  }

  lemma {:induction false} Regroup(a: string, b: string, c: string, d: string)
    ensures a + b + c + d == a + (b + c + d)
  {
  }

  lemma {:induction false} HttpJoin(host: string, digits: string, p: string)
    ensures "http" + "://" + host + (":" + digits) + p == "http://" + host + ":" + digits + p
  {
    assert "http" + "://" == "http://";
    Regroup("http://", host, ":" + digits, p);
    Regroup("http://", host, ":", digits);
  }

  /** An http generator with a port part puts scheme, host and port in
      front of the path. */
  lemma {:induction false} HttpUrl(g: Generator, host: string, digits: string, args: seq<string>, opts: Option<Hash>, p: string)
    requires g.host == Some(host) && g.scheme == Some("http") && g.portPart == Some(":" + digits)
    requires g.Expand(args, opts) == Success(p)
    ensures g.UrlFor(args, opts) == Success("http://" + host + ":" + digits + p)
  {
    UrlForParts(g, args, opts, p);
    HttpJoin(host, digits, p);
  }

  lemma {:induction false} UrlForParts(g: Generator, args: seq<string>, opts: Option<Hash>, p: string)
    requires g.host.Some? && g.scheme.Some? && g.portPart.Some? && g.Expand(args, opts) == Success(p)
    ensures g.UrlFor(args, opts) == Success(g.scheme.value + "://" + g.host.value + g.portPart.value + p)
  {
  }

  /** 'http://localhost:8080/test/:time' with 123 gives
      'http://localhost:8080/test/123': scheme, host and a port other than
      80 go in front of the path. */
  lemma {:induction false} UrlWithPort(host: string, port: nat, front: string, name: string, v: string)
    requires IsHostText(host) && port != 80
    requires front != "" && front[0] == '/' && NoColon(front) && IsName(name)
    ensures NewGenerator("http://" + host + ":" + NatToString(port) + front + ":" + name, None).UrlFor([v], None) ==
              Success("http://" + host + ":" + NatToString(port) + front + v)
  {
    var digits := NatToString(port);
    HttpGenerator(host, port, front, name, None);
    var g := Generator(None, Some(host), front + ":" + name, Some("http"), Some(":" + digits));
    ExpandOne(g, front, name, [v], None);
    HttpUrl(g, host, digits, [v], None, front + v);
    Assoc("http://" + host + ":" + digits, front, v);
  }

  /** ... and with time: '654' gives 'http://localhost:8080/test/654'. */
  lemma {:induction false} UrlWithPortNamed(host: string, port: nat, front: string, name: string, v: string)
    requires IsHostText(host) && port != 80
    requires front != "" && front[0] == '/' && NoColon(front) && IsName(name)
    ensures NewGenerator("http://" + host + ":" + NatToString(port) + front + ":" + name, None)
              .UrlFor([], Some([(name, v)])) ==
              Success("http://" + host + ":" + NatToString(port) + front + v)
  {
    var digits := NatToString(port);
    HttpGenerator(host, port, front, name, None);
    var g := Generator(None, Some(host), front + ":" + name, Some("http"), Some(":" + digits));
    ExpandOne(g, front, name, [], Some([(name, v)]));
    assert Delete([(name, v)], name) == [];
    HttpUrl(g, host, digits, [], Some([(name, v)]), front + v);
    Assoc("http://" + host + ":" + digits, front, v);
  }

  /** '/test/time' gives '/test/time': a template without placeholders is
      the path, followed by whatever options there are. */
  lemma {:induction false} NoPlaceholders(s: string, defaults: Option<Hash>, opts: Option<Hash>)
    requires IsPathFront(s)
    ensures NewGenerator(s, defaults).Expand([], opts) == Success(WithQuery(s, OptsFor(defaults, opts)))
  {
    assert s[0] == '/' && (|s| > 1 ==> s[1] != '/');
    PathTemplate(s);
    TokenizeNoColon(s);
    FillChrs(s, [], OptsFor(defaults, opts), defaults, []);
    assert Chrs(s) + [] == Chrs(s);
    assert s + "" == s;
  }

  /** A prefix block of one registration, run at the top level. */
  function PrefixBlock(p: string, d: Option<Hash>, n: string, pattern: string, d2: Option<Hash>)
    : map<string, Generator>
  {
    Declared(map[], "", None, [Prefix(p, d, [Register(n, pattern, d2)])])
  }

  /** prefix('/foo') { register(:foo_bar, '/bar') } makes path(:foo_bar)
      '/foo/bar'. */
  lemma {:induction false} PrefixedPath(p: string, n: string, pattern: string)
    requires IsPathFront(p + pattern)
    ensures PathNamed(PrefixBlock(p, None, n, pattern, None), n, [], None) == Success(p + pattern)
  {
    PrefixedRegistration(map[], "", None, p, None, n, pattern, None);
    assert "" + p + pattern == p + pattern;
    NoPlaceholders(p + pattern, None, None);
  }

  /** prefix('/foo', bar: 'baz') { register(:foo_bar, '/bar', bar: 'bam') }
      makes path(:foo_bar) '/foo/bar?bar=bam': the registration's default
      wins over the block's. */
  lemma {:induction false} PrefixDefaultsOverridden(p: string, n: string, pattern: string, k: string, v1: string, v2: string)
    requires IsPathFront(p + pattern)
    ensures PathNamed(PrefixBlock(p, Some([(k, v1)]), n, pattern, Some([(k, v2)])), n, [], None) ==
              Success(p + pattern + "?" + k + "=" + v2)
  {
    PrefixedRegistration(map[], "", None, p, Some([(k, v1)]), n, pattern, Some([(k, v2)]));
    assert "" + p + pattern == p + pattern;
    assert Store([(k, v1)], k, v2) == [(k, v2)];
    assert Merge([(k, v1)], [(k, v2)]) == Merge([(k, v2)], []) == [(k, v2)];
    NoPlaceholders(p + pattern, Some([(k, v2)]), None);
    QueryOfOne(p + pattern, k, v2);
  }

  /** ... and register(:foo_baz, '/baz') makes path(:foo_baz)
      '/foo/baz?bar=baz': the block's defaults apply. */
  lemma {:induction false} PrefixDefaultsInherited(p: string, n: string, pattern: string, k: string, v1: string)
    requires IsPathFront(p + pattern)
    ensures PathNamed(PrefixBlock(p, Some([(k, v1)]), n, pattern, None), n, [], None) ==
              Success(p + pattern + "?" + k + "=" + v1)
  {
    PrefixedRegistration(map[], "", None, p, Some([(k, v1)]), n, pattern, None);
    assert "" + p + pattern == p + pattern;
    NoPlaceholders(p + pattern, Some([(k, v1)]), None);
    QueryOfOne(p + pattern, k, v1);
  }

  /** The first test case as written: register(:test_var, '/test/:id'),
      then path(:test_var, 123) and path(:test_var, id: 123). */
  lemma {:induction false} TestVarPath()
    ensures NewGenerator("/test/:id", None).Expand(["123"], None) == Success("/test/123")
    ensures NewGenerator("/test/:id", None).Expand([], Some([("id", "123")])) == Success("/test/123")
  {
    assert IsPathFront("/test/") && IsName("id");
    assert "/test/" + ":" + "id" == "/test/:id";
    assert "/test/" + "123" == "/test/123";
    Positional("/test/", "id", "123");
    Named("/test/", "id", "123");
  }

  /** The last test case as written: prefix('/foo', bar: 'baz') with
      register(:foo_bar, '/bar', bar: 'bam') inside. */
  lemma {:induction false} TestPrefixDefaults()
    ensures PathNamed(PrefixBlock("/foo", Some([("bar", "baz")]), "foo_bar", "/bar", Some([("bar", "bam")])),
                      "foo_bar", [], None) == Success("/foo/bar?bar=bam")
  {
    assert "/foo" + "/bar" == "/foo/bar";
    assert IsPathFront("/foo/bar");
    PrefixDefaultsOverridden("/foo", "foo_bar", "/bar", "bar", "baz", "bam");
    assert "/foo/bar" + "?" + "bar" + "=" + "bam" == "/foo/bar?bar=bam";
  }
}

/** URL generation: named generators registered from templates such as
    "/test/:id", prefix contexts that prepend a path and merge defaults,
    and Generator#path / #url, which fill the template's placeholders from
    named options, defaults and positional arguments and send the options
    left over as a query string. */
module UrlGeneration {
  import opened Wrappers
  import opened Text
  import opened RubyHash
  import opened Uri

  datatype GenFailure =
    | UnknownGenerator(name: string)   // "Generator for ... doesn't exist"
    | MissingVariable(name: string)    // "variable ... not found"
    | NoHost                           // "... no host has been defined."

  // ----- the template's placeholders -----

  predicate IsWordChar(c: char) {
    'a' <= c <= 'z' || 'A' <= c <= 'Z' || '0' <= c <= '9' || c == '_'
  }

  datatype Token = Chr(c: char) | Placeholder(name: string)

  /** Length of the run of word characters at the start of t. */
  function WordLength(t: string): (n: nat)
    ensures n <= |t|
    ensures forall i :: 0 <= i < n ==> IsWordChar(t[i])
    ensures n < |t| ==> !IsWordChar(t[n])
  {
    if t == [] || !IsWordChar(t[0]) then 0 else 1 + WordLength(t[1..])
  }

  /** The scan of `gsub(/:([a-zA-Z0-9_]+)/)`: left to right, a colon
      followed by the longest run of word characters is a placeholder;
      every other character stands for itself. */
  function Tokenize(t: string): (r: seq<Token>)
    ensures |r| <= |t|
    decreases |t|
  {
    if t == [] then []
    else if t[0] == ':' && WordLength(t[1..]) > 0 then
      var n := WordLength(t[1..]);
      [Placeholder(t[1..1 + n])] + Tokenize(t[1 + n..])
    else [Chr(t[0])] + Tokenize(t[1..])
  }

  function Untokenize(ts: seq<Token>): string {
    if ts == [] then ""
    else match ts[0]
      case Chr(c) => [c] + Untokenize(ts[1..])
      case Placeholder(n) => ":" + n + Untokenize(ts[1..])
  }

  /** The placeholder names, in template order. */
  function Names(ts: seq<Token>): seq<string> {
    if ts == [] then []
    else match ts[0]
      case Chr(_) => Names(ts[1..])
      case Placeholder(n) => [n] + Names(ts[1..])
  }

  lemma {:induction false} UntokenizePlaceholder(n: string, ts: seq<Token>)
    ensures Untokenize([Placeholder(n)] + ts) == ":" + n + Untokenize(ts)
  {
    assert ([Placeholder(n)] + ts)[1..] == ts;
  }

  lemma {:induction false} UntokenizeChr(c: char, ts: seq<Token>)
    ensures Untokenize([Chr(c)] + ts) == [c] + Untokenize(ts)
  {
    assert ([Chr(c)] + ts)[1..] == ts;
  }

  lemma {:induction false} SplitPlaceholder(t: string, n: nat)
    requires 0 < n < |t| && t[0] == ':'
    ensures t == ":" + t[1..1 + n] + t[1 + n..]
  {
    assert t == [t[0]] + t[1..1 + n] + t[1 + n..];
  }

  /** Scanning loses nothing: the tokens spell the template again. */
  lemma {:induction false} TokenizeRoundTrip(t: string)
    ensures Untokenize(Tokenize(t)) == t
    decreases |t|
  {
    if t != [] {
      if t[0] == ':' && WordLength(t[1..]) > 0 {
        var n := WordLength(t[1..]);
        TokenizeRoundTrip(t[1 + n..]);
        UntokenizePlaceholder(t[1..1 + n], Tokenize(t[1 + n..]));
        SplitPlaceholder(t, n);
      } else {
        TokenizeRoundTrip(t[1..]);
        UntokenizeChr(t[0], Tokenize(t[1..]));
        assert t == [t[0]] + t[1..];
      }
    }
  }

  /** Every placeholder name is a non-empty run of word characters. */
  lemma {:induction false} NamesAreWords(t: string)
    ensures forall n :: n in Names(Tokenize(t)) ==> n != "" && forall i :: 0 <= i < |n| ==> IsWordChar(n[i])
    decreases |t|
  {
    if t != [] {
      if t[0] == ':' && WordLength(t[1..]) > 0 {
        var n := WordLength(t[1..]);
        NamesAreWords(t[1 + n..]);
        assert Tokenize(t) == [Placeholder(t[1..1 + n])] + Tokenize(t[1 + n..]);
        assert Names(Tokenize(t)) == [t[1..1 + n]] + Names(Tokenize(t[1 + n..]));
      } else {
        NamesAreWords(t[1..]);
        assert Tokenize(t) == [Chr(t[0])] + Tokenize(t[1..]);
        assert Names(Tokenize(t)) == Names(Tokenize(t[1..]));
      }
    }
  }

  // ----- filling the placeholders -----

  /** The text produced so far, the options not yet used and the
      positional arguments not yet shifted. */
  datatype Filled = Filled(text: string, opts: Option<Hash>, args: seq<string>)

  /** The value for one placeholder: `opts.delete(name)`, else
      `defaults[name]`, else `args.shift`, else raise. */
  function Take(name: string, opts: Option<Hash>, defaults: Option<Hash>, args: seq<string>)
    : (r: Result<(string, Option<Hash>, seq<string>), GenFailure>)
    ensures r.Failure? <==>
              (opts.None? || Get(opts.value, name).None?) &&
              (defaults.None? || Get(defaults.value, name).None?) && args == []
    ensures r.Failure? ==> r.error == MissingVariable(name)
  {
    if opts.Some? && Get(opts.value, name).Some? then
      Success((Get(opts.value, name).value, Some(Delete(opts.value, name)), args))
    else if defaults.Some? && Get(defaults.value, name).Some? then
      Success((Get(defaults.value, name).value, opts, args))
    else if args != [] then Success((args[0], opts, args[1..]))
    else Failure(MissingVariable(name))
  }

  function Prepend(s: string, r: Result<Filled, GenFailure>): Result<Filled, GenFailure> {
    match r
    case Success(f) => Success(Filled(s + f.text, f.opts, f.args))
    case Failure(e) => Failure(e)
  }

  /** The gsub over the tokens, left to right; the first missing value
      raises. */
  function Fill(ts: seq<Token>, opts: Option<Hash>, defaults: Option<Hash>, args: seq<string>)
    : (r: Result<Filled, GenFailure>)
    ensures r.Success? ==> |r.value.args| <= |args|
    ensures r.Failure? ==> r.error.MissingVariable?
  {
    if ts == [] then Success(Filled("", opts, args))
    else match ts[0]
      case Chr(c) => Prepend([c], Fill(ts[1..], opts, defaults, args))
      case Placeholder(n) =>
        match Take(n, opts, defaults, args)
        case Failure(e) => Failure(e)
        case Success(t) => Prepend(t.0, Fill(ts[1..], t.1, defaults, t.2))
  }

  /** The options the path is generated with: the call's options over the
      defaults, or a copy of the defaults, or the call's options. */
  function OptsFor(defaults: Option<Hash>, opts: Option<Hash>): (o: Option<Hash>)
    ensures o.None? <==> defaults.None? && opts.None?
    ensures defaults.None? ==> o == opts
    ensures opts.None? ==> o == defaults
  {
    if defaults.Some? then
      if opts.Some? then Some(Merge(defaults.value, opts.value))
      else defaults
    else opts
  }

  /** The call's options win over the defaults. */
  lemma {:induction false} OptsForContents(defaults: Hash, opts: Hash)
    requires Unique(opts)
    ensures AsMap(OptsFor(Some(defaults), Some(opts)).value) == AsMap(defaults) + AsMap(opts)
  {
    MergeContents(defaults, opts);
  }

  /** The path, then `?` and the options left over when there are any. */
  function WithQuery(text: string, opts: Option<Hash>): (r: string)
    ensures text <= r
    ensures r == text <==> opts.None? || opts.value == []
  {
    if opts.None? || opts.value == [] then text else text + "?" + BuildQuery(opts.value)
  }

  // ----- the generator -----

  /** A registered generator: the parts of its parsed template, and the
      defaults it was registered with. */
  datatype Generator = Generator(
    defaults: Option<Hash>,
    host: Option<string>,
    template: string,
    scheme: Option<string>,
    portPart: Option<string>)
  {
    /** Generator#path(*args), the trailing Hash given as `opts`. */
    function Expand(args: seq<string>, opts: Option<Hash>): (r: Result<string, GenFailure>)
      ensures r.Failure? ==> r.error.MissingVariable?
    {
      match Fill(Tokenize(template), OptsFor(defaults, opts), defaults, args)
      case Failure(e) => Failure(e)
      case Success(f) => Success(WithQuery(f.text, f.opts))
    }

    /** Generator#path: the gsub block deletes from the options and shifts
        the positional arguments as it goes. */
    method Path(args: seq<string>, opts: Option<Hash>) returns (r: Result<string, GenFailure>)
      ensures r == Expand(args, opts)
    {
      var o := OptsFor(defaults, opts);
      var ts := Tokenize(template);
      var text := "";
      var rest := args;
      var i := 0;
      assert ts[0..] == ts;
      PrependEmpty(Fill(ts, o, defaults, rest));
      while i < |ts|
        invariant 0 <= i <= |ts|
        invariant Fill(ts, OptsFor(defaults, opts), defaults, args) ==
                    Prepend(text, Fill(ts[i..], o, defaults, rest))
        decreases |ts| - i
      {
        assert ts[i..][1..] == ts[i + 1..];
        match ts[i] {
        case Chr(c) =>
          PrependTwice(text, [c], Fill(ts[i + 1..], o, defaults, rest));
          text := text + [c];
        case Placeholder(name) =>
          var v;
          var o', rest' := o, rest;
          if o.Some? && Get(o.value, name).Some? {
            v := Get(o.value, name).value;
            o' := Some(Delete(o.value, name));
          } else if defaults.Some? && Get(defaults.value, name).Some? {
            v := Get(defaults.value, name).value;
          } else if rest != [] {
            v := rest[0];
            rest' := rest[1..];
          } else {
            return Failure(MissingVariable(name));
          }
          PrependTwice(text, v, Fill(ts[i + 1..], o', defaults, rest'));
          text, o, rest := text + v, o', rest';
        }
        i := i + 1;
      }
      assert ts[i..] == [];
      assert text + "" == text;
      r := Success(WithQuery(text, o));
    }

    /** Generator#url(*args). */
    function UrlFor(args: seq<string>, opts: Option<Hash>): (r: Result<string, GenFailure>)
      ensures host.None? ==> r == Failure(NoHost)
      ensures host.Some? && Expand(args, opts).Failure? ==> r == Expand(args, opts)
      ensures host.Some? && Expand(args, opts).Success? ==>
                r.Success? && |r.value| >= |Expand(args, opts).value| &&
                r.value[|r.value| - |Expand(args, opts).value|..] == Expand(args, opts).value
    {
      if host.None? then Failure(NoHost)
      else match Expand(args, opts)
        case Failure(e) => Failure(e)
        case Success(p) =>
          var front := (if scheme.Some? then scheme.value else "") + "://" + host.value +
                       (if portPart.Some? then portPart.value else "");
          assert (front + p)[|front|..] == p;
          Success(front + p)
    }

    method Url(args: seq<string>, opts: Option<Hash>) returns (r: Result<string, GenFailure>)
      ensures r == UrlFor(args, opts)
    {
      if host.None? {
        return Failure(NoHost);
      }
      var p := Path(args, opts);
      if p.Failure? {
        return Failure(p.error);
      }
      var front := (if scheme.Some? then scheme.value else "") + "://" + host.value +
                   (if portPart.Some? then portPart.value else "");
      r := Success(front + p.value);
    }
  }

  lemma {:induction false} PrependEmpty(r: Result<Filled, GenFailure>)
    ensures Prepend("", r) == r
  {
    if r.Success? {
      assert "" + r.value.text == r.value.text;
    }
  }

  lemma {:induction false} PrependTwice(a: string, b: string, r: Result<Filled, GenFailure>)
    ensures Prepend(a, Prepend(b, r)) == Prepend(a + b, r)
  {
    if r.Success? {
      assert a + (b + r.value.text) == (a + b) + r.value.text;
    }
  }

  /** Generator.new(template, defaults), with the intended port part: the
      port is shown unless it is the scheme's default. */
  function NewGenerator(template: string, defaults: Option<Hash>): (g: Generator)
    ensures g.defaults == defaults
  {
    var u := ParseTemplate(template);
    Generator(defaults, u.host, u.path, u.scheme, PortPart(u.scheme, u.port))
  }

  /** Generator.new(template, defaults) as url_generation.rb writes it: it
      differs from the intended generator only in its port part. */
  function NewGeneratorAsWritten(template: string, defaults: Option<Hash>): (g: Generator)
    ensures var i := NewGenerator(template, defaults);
            g.defaults == i.defaults && g.host == i.host && g.template == i.template && g.scheme == i.scheme
  {
    var u := ParseTemplate(template);
    Generator(defaults, u.host, u.path, u.scheme, PortPartAsWritten(u.scheme, u.port))
  }

  /** A path template has no host: url always raises, and the template is
      the generator's path. */
  lemma {:induction false} UrlFromPathTemplate(t: string, d: Option<Hash>, args: seq<string>, opts: Option<Hash>)
    requires t != "" && t[0] == '/' && !("//" <= t)
    ensures NewGenerator(t, d).template == t
    ensures NewGenerator(t, d).UrlFor(args, opts) == Failure(NoHost)
  {
    PathTemplate(t);
  }

  /** From `scheme://host:port/path`, url builds the scheme, "://", the
      host, the port unless it is the scheme's default (and only for http
      and https), then the expansion of the path; a failing expansion
      raises as path does. */
  lemma {:induction false} UrlFromTemplate(scheme: string, host: string, digits: string, path: string,
                                           d: Option<Hash>, args: seq<string>, opts: Option<Hash>)
    requires IsSchemeText(scheme) && IsHostText(host) && digits != "" && AllDigits(digits)
    requires path == "" || path[0] == '/'
    ensures var g := NewGenerator(scheme + "://" + host + ":" + digits + path, d);
            var v := ValueIn(10, digits);
            var shown := (scheme == "http" && v != 80) || (scheme == "https" && v != 443);
            g.defaults == d && g.template == path &&
            g.UrlFor(args, opts) == match g.Expand(args, opts)
                                    case Failure(e) => Failure(e)
                                    case Success(p) =>
                                      Success(scheme + "://" + host + (if shown then ":" + NatToString(v) else "") + p)
  {
    AbsoluteTemplate(scheme, host, digits, path);
  }

  /** From `scheme://host/path`, url builds the scheme, "://", the host and
      the expansion of the path, with no port. */
  lemma {:induction false} UrlFromTemplateNoPort(scheme: string, host: string, path: string,
                                                 d: Option<Hash>, args: seq<string>, opts: Option<Hash>)
    requires IsSchemeText(scheme) && IsHostText(host)
    requires path == "" || path[0] == '/'
    ensures var g := NewGenerator(scheme + "://" + host + path, d);
            g.defaults == d && g.template == path &&
            g.UrlFor(args, opts) == match g.Expand(args, opts)
                                    case Failure(e) => Failure(e)
                                    case Success(p) => Success(scheme + "://" + host + p)
  {
    AbsoluteTemplateDefaultPort(scheme, host, path);
    var g := NewGenerator(scheme + "://" + host + path, d);
    assert g.portPart == None;
    match g.Expand(args, opts)
    case Failure(e) =>
    case Success(p) =>
      assert scheme + "://" + host + "" == scheme + "://" + host;
  }

  /** As written, an http or https URL without a port gets the scheme's
      default port: `http://localhost/test` gives
      `http://localhost:80/test`. */
  lemma {:induction false} AsWrittenUrlShowsDefaultPort(scheme: string, host: string, path: string,
                                                        d: Option<Hash>, args: seq<string>, opts: Option<Hash>)
    requires scheme == "http" || scheme == "https"
    requires IsHostText(host) && (path == "" || path[0] == '/')
    ensures var g := NewGeneratorAsWritten(scheme + "://" + host + path, d);
            g.UrlFor(args, opts) == match g.Expand(args, opts)
                                    case Failure(e) => Failure(e)
                                    case Success(p) =>
                                      Success(scheme + "://" + host + (if scheme == "http" then ":80" else ":443") + p)
  {
    assert IsSchemeText("http") && IsSchemeText("https");
    AbsoluteTemplateDefaultPort(scheme, host, path);
    var dp := if scheme == "http" then ":80" else ":443";
    if scheme == "http" {
      EightyText();
      assert DefaultPort(Some(scheme)) == Some(80);
      assert ":" + NatToString(80) == dp;
    } else {
      FourFortyThreeText();
      assert DefaultPort(Some(scheme)) == Some(443);
      assert ":" + NatToString(443) == dp;
    }
    assert PortPartAsWritten(Some(scheme), DefaultPort(Some(scheme))) == Some(dp);
    var g := NewGeneratorAsWritten(scheme + "://" + host + path, d);
    assert g == Generator(d, Some(host), path, Some(scheme), Some(dp));
    UrlForFront(g, scheme + "://" + host + dp, args, opts);
  }

  lemma {:induction false} UrlForFront(g: Generator, front: string, args: seq<string>, opts: Option<Hash>)
    requires g.host.Some? && g.scheme.Some?
    requires front == g.scheme.value + "://" + g.host.value + (if g.portPart.Some? then g.portPart.value else "")
    ensures g.UrlFor(args, opts) == match g.Expand(args, opts)
                                    case Failure(e) => Failure(e)
                                    case Success(p) => Success(front + p)
  {
  }

  /** defaults_for_generation: the context's defaults merged with the given
      ones (which win), or whichever of the two exists. */
  function DefaultsForGeneration(current: Option<Hash>, given: Option<Hash>): (r: Option<Hash>)
    ensures r.None? <==> current.None? && given.None?
    ensures current.None? ==> r == given
    ensures given.None? ==> r == current
  {
    if current.Some? && given.Some? then Some(Merge(current.value, given.value))
    else if given.Some? then given
    else current
  }

  /** Both present: the given defaults override the context's, key by key,
      and the result is again a Hash with each key once. */
  lemma {:induction false} DefaultsForGenerationContents(current: Hash, given: Hash)
    requires Unique(current) && Unique(given)
    ensures AsMap(DefaultsForGeneration(Some(current), Some(given)).value) == AsMap(current) + AsMap(given)
    ensures Unique(DefaultsForGeneration(Some(current), Some(given)).value)
  {
    MergeContents(current, given);
    MergeUnique(current, given);
  }

  // ----- what filling promises -----

  /** The options left after filling are the options the fill started
      with, minus every placeholder name, in their original order. */
  function DeleteAll(h: Hash, names: seq<string>): Hash
    decreases |names|
  {
    if names == [] then h else DeleteAll(Delete(h, names[0]), names[1..])
  }

  lemma {:induction false} FillLeavesOptions(ts: seq<Token>, h: Hash, defaults: Option<Hash>, args: seq<string>)
    requires Fill(ts, Some(h), defaults, args).Success?
    ensures Fill(ts, Some(h), defaults, args).value.opts == Some(DeleteAll(h, Names(ts)))
  {
    if ts != [] {
      match ts[0]
      case Chr(c) =>
        FillLeavesOptions(ts[1..], h, defaults, args);
      case Placeholder(n) =>
        var t := Take(n, Some(h), defaults, args).value;
        if Get(h, n).Some? {
          FillLeavesOptions(ts[1..], Delete(h, n), defaults, t.2);
        } else {
          GetSpec(h, n);
          AsMapKeys(h, n);
          DeleteAbsent(h, n);
          FillLeavesOptions(ts[1..], h, defaults, t.2);
        }
        assert Names(ts) == [n] + Names(ts[1..]);
    }
  }

  /** None of the template's names is left among the options, and nothing
      else was removed. */
  lemma {:induction false} DeleteAllContents(h: Hash, names: seq<string>)
    requires Unique(h)
    ensures Unique(DeleteAll(h, names))
    ensures AsMap(DeleteAll(h, names)) == AsMap(h) - set n | n in names
    decreases |names|
  {
    if names != [] {
      DeleteContents(h, names[0]);
      DeleteUnique(h, names[0]);
      DeleteAllContents(Delete(h, names[0]), names[1..]);
    }
  }

  /** Fill placeholders in order from a list of values. */
  function Render(ts: seq<Token>, values: seq<string>): string
    requires |values| == |Names(ts)|
  {
    if ts == [] then ""
    else match ts[0]
      case Chr(c) => [c] + Render(ts[1..], values)
      case Placeholder(_) => values[0] + Render(ts[1..], values[1..])
  }

  /** Without options or defaults, the placeholders take the positional
      arguments in order; the call fails exactly when there are fewer
      arguments than placeholders, and extra arguments are ignored. */
  lemma {:induction false} FillPositional(ts: seq<Token>, args: seq<string>)
    ensures Fill(ts, None, None, args).Success? <==> |args| >= |Names(ts)|
    ensures |args| >= |Names(ts)| ==>
              Fill(ts, None, None, args) ==
                Success(Filled(Render(ts, args[..|Names(ts)|]), None, args[|Names(ts)|..]))
  {
    if ts != [] {
      match ts[0]
      case Chr(c) =>
        FillPositional(ts[1..], args);
      case Placeholder(n) =>
        assert Names(ts) == [n] + Names(ts[1..]);
        if args != [] {
          FillPositional(ts[1..], args[1..]);
          if |args| >= |Names(ts)| {
            assert args[..|Names(ts)|][1..] == args[1..][..|Names(ts[1..])|];
            assert args[1..][|Names(ts[1..])|..] == args[|Names(ts)|..];
          }
        }
    }
  }

  /** Each name occurs once in the template. */
  predicate Distinct(names: seq<string>) {
    forall i, j :: 0 <= i < j < |names| ==> names[i] != names[j]
  }

  /** Fill placeholders by name from a map. */
  function RenderNamed(ts: seq<Token>, m: map<string, string>): string
    requires forall n :: n in Names(ts) ==> n in m
  {
    if ts == [] then ""
    else match ts[0]
      case Chr(c) => [c] + RenderNamed(ts[1..], m)
      case Placeholder(n) =>
        assert Names(ts) == [n] + Names(ts[1..]);
        m[n] + RenderNamed(ts[1..], m)
  }

  lemma {:induction false} RenderNamedIgnores(ts: seq<Token>, m: map<string, string>, k: string)
    requires forall n :: n in Names(ts) ==> n in m
    requires k !in Names(ts)
    ensures forall n :: n in Names(ts) ==> n in m - {k}
    ensures RenderNamed(ts, m - {k}) == RenderNamed(ts, m)
  {
    if ts != [] {
      match ts[0]
      case Chr(c) =>
        RenderNamedIgnores(ts[1..], m, k);
      case Placeholder(n) =>
        assert Names(ts) == [n] + Names(ts[1..]);
        RenderNamedIgnores(ts[1..], m, k);
    }
  }

  /** When every placeholder is named once and every name is among the
      options, each placeholder takes its option and no positional
      argument is used. */
  lemma {:induction false} FillNamed(ts: seq<Token>, h: Hash, defaults: Option<Hash>, args: seq<string>)
    requires Unique(h) && Distinct(Names(ts))
    requires forall n :: n in Names(ts) ==> n in AsMap(h)
    ensures Fill(ts, Some(h), defaults, args).Success?
    ensures Fill(ts, Some(h), defaults, args).value.text == RenderNamed(ts, AsMap(h))
    ensures Fill(ts, Some(h), defaults, args).value.args == args
  {
    if ts != [] {
      match ts[0]
      case Chr(c) =>
        assert Names(ts) == Names(ts[1..]);
        FillNamed(ts[1..], h, defaults, args);
      case Placeholder(n) =>
        assert Names(ts) == [n] + Names(ts[1..]);
        assert n !in Names(ts[1..]) by {
          var ns, rest := Names(ts), Names(ts[1..]);
          assert forall j :: 0 <= j < |rest| ==> rest[j] == ns[j + 1] && ns[0] != ns[j + 1];
        }
        assert Distinct(Names(ts[1..])) by {
          forall i, j | 0 <= i < j < |Names(ts[1..])|
            ensures Names(ts[1..])[i] != Names(ts[1..])[j]
          {
            assert Names(ts[1..])[i] == Names(ts)[i + 1] && Names(ts[1..])[j] == Names(ts)[j + 1];
          }
        }
        GetSpec(h, n);
        DeleteContents(h, n);
        DeleteUnique(h, n);
        RenderNamedIgnores(ts[1..], AsMap(h), n);
        FillNamed(ts[1..], Delete(h, n), defaults, args);
    }
  }

  // ----- registration -----

  /** What a prefix block does, in the order it does it. Each declaration
      is addressed to the block's receiver. */
  datatype Decl =
    | Register(name: string, pattern: string, defaults: Option<Hash>)
    | Prefix(prefix: string, defaults: Option<Hash>, block: seq<Decl>)

  function DeclSize(d: Decl): nat {
    match d
    case Register(_, _, _) => 1
    case Prefix(_, _, b) => 1 + DeclsSize(b)
  }

  function DeclsSize(ds: seq<Decl>): (n: nat)
    ensures ds != [] ==> n == DeclSize(ds[0]) + DeclsSize(ds[1..])
  {
    if ds == [] then 0 else DeclSize(ds[0]) + DeclsSize(ds[1..])
  }

  /** The generators after running `ds` in a context with the given
      prefix and defaults. */
  function Declared(gens: map<string, Generator>, prefix: string, defaults: Option<Hash>, ds: seq<Decl>)
    : map<string, Generator>
    decreases DeclsSize(ds)
  {
    if ds == [] then gens
    else match ds[0]
      case Register(n, pattern, d) =>
        Declared(gens[n := NewGenerator(prefix + pattern, DefaultsForGeneration(defaults, d))], prefix, defaults, ds[1..])
      case Prefix(p, d, inner) =>
        Declared(Declared(gens, prefix + p, DefaultsForGeneration(defaults, d), inner), prefix, defaults, ds[1..])
  }

  /** The names a block registers, nested blocks included. */
  function RegisteredNames(ds: seq<Decl>): set<string>
    decreases DeclsSize(ds)
  {
    if ds == [] then {}
    else match ds[0]
      case Register(n, _, _) => {n} + RegisteredNames(ds[1..])
      case Prefix(_, _, inner) => RegisteredNames(inner) + RegisteredNames(ds[1..])
  }

  /** A block adds generators under the names it registers and leaves
      every other generator as it was. */
  lemma {:induction false} DeclaredFrame(gens: map<string, Generator>, prefix: string, defaults: Option<Hash>,
                                         ds: seq<Decl>)
    ensures Declared(gens, prefix, defaults, ds).Keys == gens.Keys + RegisteredNames(ds)
    ensures forall k :: k in gens && k !in RegisteredNames(ds) ==> Declared(gens, prefix, defaults, ds)[k] == gens[k]
    decreases DeclsSize(ds)
  {
    if ds != [] {
      match ds[0]
      case Register(n, pattern, d) =>
        DeclaredFrame(gens[n := NewGenerator(prefix + pattern, DefaultsForGeneration(defaults, d))], prefix, defaults, ds[1..]);
      case Prefix(p, d, inner) =>
        DeclaredFrame(gens, prefix + p, DefaultsForGeneration(defaults, d), inner);
        DeclaredFrame(Declared(gens, prefix + p, DefaultsForGeneration(defaults, d), inner), prefix, defaults, ds[1..]);
    }
  }

  /** Running two blocks one after the other is running their
      concatenation. */
  lemma {:induction false} DeclaredAppend(gens: map<string, Generator>, prefix: string, defaults: Option<Hash>,
                                          a: seq<Decl>, b: seq<Decl>)
    ensures Declared(gens, prefix, defaults, a + b) == Declared(Declared(gens, prefix, defaults, a), prefix, defaults, b)
    decreases DeclsSize(a)
  {
    if a != [] {
      assert (a + b)[0] == a[0];
      assert (a + b)[1..] == a[1..] + b;
      match a[0]
      case Register(n, pattern, d) =>
        DeclaredAppend(gens[n := NewGenerator(prefix + pattern, DefaultsForGeneration(defaults, d))], prefix, defaults, a[1..], b);
      case Prefix(p, d, inner) =>
        DeclaredAppend(Declared(gens, prefix + p, DefaultsForGeneration(defaults, d), inner), prefix, defaults, a[1..], b);
    } else {
      assert a + b == b;
    }
  }

  /** A name registered inside a prefix block gets the prefix in front of
      its pattern and the block's defaults merged under its own. */
  lemma {:induction false} PrefixedRegistration(gens: map<string, Generator>, prefix: string, defaults: Option<Hash>,
                             p: string, d: Option<Hash>, n: string, pattern: string, d2: Option<Hash>)
    ensures var after := Declared(gens, prefix, defaults, [Prefix(p, d, [Register(n, pattern, d2)])]);
            n in after &&
            after[n] == NewGenerator(prefix + p + pattern, DefaultsForGeneration(DefaultsForGeneration(defaults, d), d2))
  {
    var inner := [Register(n, pattern, d2)];
    var g := NewGenerator(prefix + p + pattern, DefaultsForGeneration(DefaultsForGeneration(defaults, d), d2));
    assert inner[1..] == [];
    assert [Prefix(p, d, inner)][1..] == [];
    assert Declared(gens, prefix + p, DefaultsForGeneration(defaults, d), inner) == gens[n := g];
    assert Declared(gens, prefix, defaults, [Prefix(p, d, inner)]) ==
             Declared(gens[n := g], prefix, defaults, []);
  }

  /** path(name, *args) / url(name, *args): the generator under that name,
      or raise. */
  function PathNamed(gens: map<string, Generator>, name: string, args: seq<string>, opts: Option<Hash>)
    : (r: Result<string, GenFailure>)
    ensures name !in gens <==> r == Failure(UnknownGenerator(name))
    ensures name in gens ==> r == gens[name].Expand(args, opts)
  {
    if name in gens then
      var r := gens[name].Expand(args, opts);
      assert r != Failure(UnknownGenerator(name)) by { ExpandFailures(gens[name], args, opts); }
      r
    else Failure(UnknownGenerator(name))
  }

  function UrlNamed(gens: map<string, Generator>, name: string, args: seq<string>, opts: Option<Hash>)
    : (r: Result<string, GenFailure>)
    ensures name !in gens <==> r == Failure(UnknownGenerator(name))
    ensures name in gens ==> r == gens[name].UrlFor(args, opts)
  {
    if name in gens then
      var r := gens[name].UrlFor(args, opts);
      assert r != Failure(UnknownGenerator(name)) by { ExpandFailures(gens[name], args, opts); }
      r
    else Failure(UnknownGenerator(name))
  }

  lemma {:induction false} FillFailures(ts: seq<Token>, o: Option<Hash>, defaults: Option<Hash>, args: seq<string>)
    ensures Fill(ts, o, defaults, args).Failure? ==> Fill(ts, o, defaults, args).error.MissingVariable?
  {
    if ts != [] {
      match ts[0]
      case Chr(c) => FillFailures(ts[1..], o, defaults, args);
      case Placeholder(n) =>
        var t := Take(n, o, defaults, args);
        if t.Success? {
          FillFailures(ts[1..], t.value.1, defaults, t.value.2);
        }
    }
  }

  /** Generating from a generator raises only for a missing variable. */
  lemma {:induction false} ExpandFailures(g: Generator, args: seq<string>, opts: Option<Hash>)
    ensures g.Expand(args, opts).Failure? ==> g.Expand(args, opts).error.MissingVariable?
  {
    FillFailures(Tokenize(g.template), OptsFor(g.defaults, opts), g.defaults, args);
  }

  // ----- the registry and generation contexts -----

  /** `url_generators`, shared by an application and every context a
      prefix creates from it. */
  class Registry {
    var generators: map<string, Generator>

    constructor()
      ensures generators == map[]
    {
      generators := map[];
    }
  }

  /** An object that includes URLGeneration: its generation prefix and
      defaults, and the registry it registers into. */
  class Generation {
    const registry: Registry
    var prefix: string
    var defaults: Option<Hash>

    constructor(registry: Registry)
      ensures this.registry == registry && prefix == "" && defaults == None
    {
      this.registry := registry;
      prefix := "";
      defaults := None;
    }

    /** register(name, pattern, defaults). */
    method Register(name: string, pattern: string, d: Option<Hash>) returns (g: Generator)
      modifies registry
      ensures g == NewGenerator(prefix + pattern, DefaultsForGeneration(defaults, d))
      ensures registry.generators == old(registry.generators)[name := g]
    {
      g := NewGenerator(prefix + pattern, DefaultsForGeneration(defaults, d));
      registry.generators := registry.generators[name := g];
    }

    /** prefix(prefix, defaults) { ... }: a new context sharing the registry;
        while the block runs on it, this context's own prefix and defaults
        are set to the same values, and they are restored afterwards. */
    method Prefix(p: string, d: Option<Hash>, block: Option<seq<Decl>>) returns (sub: Generation)
      modifies this, registry
      ensures fresh(sub) && sub.registry == registry
      ensures sub.prefix == old(prefix) + p && sub.defaults == DefaultsForGeneration(old(defaults), d)
      ensures prefix == old(prefix) && defaults == old(defaults)
      ensures block.None? ==> registry.generators == old(registry.generators)
      ensures block.Some? ==>
                registry.generators ==
                  Declared(old(registry.generators), old(prefix) + p, DefaultsForGeneration(old(defaults), d), block.value)
      decreases if block.Some? then DeclsSize(block.value) else 0, 3
    {
      sub := new Generation(registry);
      sub.prefix := prefix + p;
      sub.defaults := DefaultsForGeneration(defaults, d);
      if block.Some? {
        var oldPrefix, oldDefaults := prefix, defaults;
        prefix, defaults := prefix + p, DefaultsForGeneration(defaults, d);
        sub.Run(block.value);
        prefix, defaults := oldPrefix, oldDefaults;
      }
    }

    /** The block of a prefix call, run with this context as receiver. */
    method Run(ds: seq<Decl>)
      modifies this, registry
      ensures prefix == old(prefix) && defaults == old(defaults)
      ensures registry.generators == Declared(old(registry.generators), old(prefix), old(defaults), ds)
      decreases DeclsSize(ds), 2
    {
      var i := 0;
      while i < |ds|
        invariant 0 <= i <= |ds|
        invariant prefix == old(prefix) && defaults == old(defaults)
        invariant Declared(old(registry.generators), prefix, defaults, ds) ==
                    Declared(registry.generators, prefix, defaults, ds[i..])
      {
        DeclsSizeSuffix(ds, i);
        DeclaredStep(registry.generators, prefix, defaults, ds, i);
        Perform(ds[i]);
        i := i + 1;
      }
    }

    /** One declaration of a block. */
    method Perform(d: Decl)
      modifies this, registry
      ensures prefix == old(prefix) && defaults == old(defaults)
      ensures d.Register? ==>
                registry.generators ==
                  old(registry.generators)[d.name := NewGenerator(prefix + d.pattern, DefaultsForGeneration(defaults, d.defaults))]
      ensures d.Prefix? ==>
                registry.generators ==
                  Declared(old(registry.generators), prefix + d.prefix, DefaultsForGeneration(defaults, d.defaults), d.block)
      decreases DeclSize(d), 1
    {
      match d {
      case Register(n, pattern, dd) =>
        var _ := Register(n, pattern, dd);
      case Prefix(p, dd, inner) =>
        var _ := Prefix(p, dd, Some(inner));
      }
    }

    /** path(name, *args). */
    method Path(name: string, args: seq<string>, opts: Option<Hash>) returns (r: Result<string, GenFailure>)
      ensures r == PathNamed(registry.generators, name, args, opts)
    {
      if name in registry.generators {
        r := registry.generators[name].Path(args, opts);
      } else {
        r := Failure(UnknownGenerator(name));
      }
    }

    /** url(name, *args). */
    method Url(name: string, args: seq<string>, opts: Option<Hash>) returns (r: Result<string, GenFailure>)
      ensures r == UrlNamed(registry.generators, name, args, opts)
    {
      if name in registry.generators {
        r := registry.generators[name].Url(args, opts);
      } else {
        r := Failure(UnknownGenerator(name));
      }
    }
  }

  lemma {:induction false} DeclsSizeSuffix(ds: seq<Decl>, i: nat)
    requires i < |ds|
    ensures DeclSize(ds[i]) <= DeclsSize(ds[i..]) <= DeclsSize(ds)
  {
    if i > 0 {
      DeclsSizeSuffix(ds[1..], i - 1);
      assert ds[1..][i - 1..] == ds[i..];
    }
  }

  lemma {:induction false} DeclaredStep(gens: map<string, Generator>, prefix: string, defaults: Option<Hash>, ds: seq<Decl>, i: nat)
    requires i < |ds|
    ensures ds[i].Register? ==>
              Declared(gens, prefix, defaults, ds[i..]) ==
                Declared(gens[ds[i].name := NewGenerator(prefix + ds[i].pattern, DefaultsForGeneration(defaults, ds[i].defaults))],
                         prefix, defaults, ds[i + 1..])
    ensures ds[i].Prefix? ==>
              Declared(gens, prefix, defaults, ds[i..]) ==
                Declared(Declared(gens, prefix + ds[i].prefix, DefaultsForGeneration(defaults, ds[i].defaults), ds[i].block),
                         prefix, defaults, ds[i + 1..])
  {
    assert ds[i..][0] == ds[i];
    assert ds[i..][1..] == ds[i + 1..];
  }
}

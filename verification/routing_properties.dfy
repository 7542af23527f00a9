/** What the matchers of routing.rb do, stated over the request path
    itself rather than through the pattern functions that implement them. */
module RoutingProperties {
  import opened Wrappers
  import opened Text
  import opened Patterns
  import opened Responding
  import opened Routing

  /** Running `block` on the cursor `inner`, seen from a declaration that
      started at `c`: a normal return puts `c` back, a halt or raise keeps
      whatever cursor the block left. */
  function Enter(block: seq<Route>, ctx: Context, inner: Cursor, caps: seq<Capture>, c: Cursor): Step {
    var s := Eval(block, ctx, inner, caps);
    if s.outcome.Continue? then Step(Continue, c) else s
  }

  /** Cursor after moving `consumed` from the front of PATH_INFO. */
  function Moved(c: Cursor, consumed: string): Cursor
    requires consumed <= c.pathInfo
  {
    Cursor(c.scriptName + consumed, c.pathInfo[|consumed|..])
  }

  lemma {:induction false} WithPathPartEnters(n: nat, block: seq<Route>, ctx: Context, c: Cursor,
                           caps: seq<Capture>, vs: seq<Capture>)
    requires n <= |c.pathInfo|
    ensures EvalWithPathPart(n, block, ctx, c, caps, Success(vs)) ==
              Enter(block, ctx, Moved(c, c.pathInfo[..n]), caps + vs, c)
  {
  }

  // ----- blocks -----

  /** Declarations run in order: a block made of two parts runs the
      second part only when the first returns normally, on the same
      cursor; otherwise the first part's halt or raise is the result. */
  lemma {:induction false} EvalAppend(b1: seq<Route>, b2: seq<Route>, ctx: Context, c: Cursor, caps: seq<Capture>)
    ensures Eval(b1 + b2, ctx, c, caps) ==
              var s := Eval(b1, ctx, c, caps);
              if s.outcome.Continue? then Eval(b2, ctx, c, caps) else s
    decreases |b1|
  {
    if |b1| > 0 {
      assert (b1 + b2)[0] == b1[0];
      assert (b1 + b2)[1..] == b1[1..] + b2;
      var first := EvalRoute(b1[0], ctx, c, caps);
      if first.outcome.Continue? {
        EvalAppend(b1[1..], b2, ctx, first.cursor, caps);
      }
    } else {
      assert b1 + b2 == b2;
    }
  }

  lemma {:induction false} EvalSingle(r: Route, ctx: Context, c: Cursor, caps: seq<Capture>)
    ensures Eval([r], ctx, c, caps) == EvalRoute(r, ctx, c, caps)
  {
    assert [r][1..] == [];
  }

  /** A declaration that returns normally hands the same cursor on. */
  lemma {:induction false} EvalSkip(r: Route, rest: seq<Route>, ctx: Context, c: Cursor, caps: seq<Capture>)
    requires EvalRoute(r, ctx, c, caps).outcome.Continue?
    ensures Eval([r] + rest, ctx, c, caps) == Eval(rest, ctx, c, caps)
  {
    assert ([r] + rest)[0] == r;
    assert ([r] + rest)[1..] == rest;
  }

  /** Once a declaration halts, the declarations after it never run. */
  lemma {:induction false} HaltEndsBlock(r: Route, rest: seq<Route>, ctx: Context, c: Cursor, caps: seq<Capture>)
    requires EvalRoute(r, ctx, c, caps).outcome.Halted?
    ensures Eval([r] + rest, ctx, c, caps) == EvalRoute(r, ctx, c, caps)
  {
    assert ([r] + rest)[0] == r;
  }

  // ----- path, exact_path, part -----

  /** path(p): enters iff PATH_INFO starts with "/" + p (p without its
      leading slash), consuming one more "/" only when that slash is all
      that is left; there is no segment-boundary check. */
  lemma {:induction false} PathSpec(p: string, block: seq<Route>, ctx: Context, c: Cursor, caps: seq<Capture>)
    ensures var q := StripLeadingSlash(p);
            && (!("/" + q <= c.pathInfo) ==> EvalPath(p, block, ctx, c, caps) == Step(Continue, c))
            && (c.pathInfo == "/" + q + "/" ==>
                  EvalPath(p, block, ctx, c, caps) == Enter(block, ctx, Cursor(c.scriptName + c.pathInfo, ""), caps, c))
            && ("/" + q <= c.pathInfo && c.pathInfo != "/" + q + "/" ==>
                  EvalPath(p, block, ctx, c, caps) == Enter(block, ctx, Moved(c, "/" + q), caps, c))
  {
    var q := StripLeadingSlash(p);
    match PathMatch(q, c.pathInfo)
    case None =>
    case Some(m) =>
      WithPathPartEnters(|m|, block, ctx, c, caps, []);
      assert c.pathInfo[..|m|] == m;
      assert caps + [] == caps;
      if c.pathInfo == "/" + q + "/" {
        assert c.pathInfo[|m|..] == "";
      }
  }

  /** exact_path(p): never takes the trailing slash; a leading slash in p
      raises instead of matching. */
  lemma {:induction false} ExactPathSpec(p: string, block: seq<Route>, ctx: Context, c: Cursor, caps: seq<Capture>)
    ensures |p| > 0 && p[0] == '/' ==> EvalExactPath(p, block, ctx, c, caps) == Step(Raised(MissingPartArgument), c)
    ensures !(|p| > 0 && p[0] == '/') && !("/" + p <= c.pathInfo) ==>
              EvalExactPath(p, block, ctx, c, caps) == Step(Continue, c)
    ensures !(|p| > 0 && p[0] == '/') && "/" + p <= c.pathInfo ==>
              EvalExactPath(p, block, ctx, c, caps) == Enter(block, ctx, Moved(c, "/" + p), caps, c)
  {
    if !(|p| > 0 && p[0] == '/') && "/" + p <= c.pathInfo {
      WithPathPartEnters(|"/" + p|, block, ctx, c, caps, []);
      assert c.pathInfo[..|"/" + p|] == "/" + p;
      assert caps + [] == caps;
    }
  }

  /** part(p): enters iff p occurs anywhere in PATH_INFO, and then takes
      as many characters from the front as the match has, whatever they
      are. At the front of the path, "/p" is taken before "p". */
  lemma {:induction false} PartSpec(p: string, block: seq<Route>, ctx: Context, c: Cursor, caps: seq<Capture>)
    ensures !OccursFrom(p, c.pathInfo, 0) ==> EvalPart(p, block, ctx, c, caps) == Step(Continue, c)
    ensures OccursFrom(p, c.pathInfo, 0) ==> PartMatch(p, c.pathInfo).Some?
    ensures PartMatch(p, c.pathInfo).Some? ==>
              EvalPart(p, block, ctx, c, caps) ==
                Enter(block, ctx, Moved(c, c.pathInfo[..|PartMatch(p, c.pathInfo).value|]), caps, c)
    ensures "/" + p <= c.pathInfo ==>
              EvalPart(p, block, ctx, c, caps) == Enter(block, ctx, Moved(c, "/" + p), caps, c)
    ensures !("/" + p <= c.pathInfo) && p <= c.pathInfo ==>
              EvalPart(p, block, ctx, c, caps) == Enter(block, ctx, Moved(c, p), caps, c)
  {
    PartMatchFromFinds(p, c.pathInfo, 0);
    var m := PartMatch(p, c.pathInfo);
    if m.Some? {
      WithPathPartEnters(|m.value|, block, ctx, c, caps, []);
      assert caps + [] == caps;
    }
    assert c.pathInfo[0..] == c.pathInfo;
    if "/" + p <= c.pathInfo {
      assert c.pathInfo[..|"/" + p|] == "/" + p;
    } else if p <= c.pathInfo {
      assert c.pathInfo[..|p|] == p;
    }
  }

  // ----- variable -----

  /** `parts` and `rest` split PATH_INFO into n segments, each a slash and
      a non-empty run of the class, and what follows; the last run cannot
      be extended. */
  ghost predicate IsSplit(cls: CharClass, path: string, n: nat, parts: seq<string>, rest: string) {
    && |parts| == n
    && (forall i :: 0 <= i < n ==> IsRun(cls, parts[i]))
    && (n > 0 ==> rest == "" || !InClass(cls, rest[0]))
    && path == SlashJoin(parts) + rest
  }

  function Texts(parts: seq<string>): (cs: seq<Capture>)
    ensures |cs| == |parts|
    ensures forall i :: 0 <= i < |parts| ==> cs[i] == Str(parts[i])
  {
    if |parts| == 0 then [] else [Str(parts[0])] + Texts(parts[1..])
  }

  /** Without Integer, captures are passed as the matched texts. */
  lemma {:induction false} ConvertTexts(texts: seq<string>)
    ensures Convert(texts, false) == Success(Texts(texts))
  {
    if |texts| > 0 {
      ConvertTexts(texts[1..]);
    }
  }

  /** With Integer, every capture goes through Integer(), left to right:
      the call succeeds iff each text is accepted, the values in order;
      otherwise the first rejected text is reported. */
  lemma {:induction false} ConvertIntegers(texts: seq<string>)
    ensures Convert(texts, true).Success? <==> forall i :: 0 <= i < |texts| ==> RubyInteger(texts[i]).Success?
    ensures Convert(texts, true).Success? ==>
              && |Convert(texts, true).value| == |texts|
              && forall i :: 0 <= i < |texts| ==> Convert(texts, true).value[i] == Num(RubyInteger(texts[i]).value)
    ensures Convert(texts, true).Failure? ==>
              exists j :: 0 <= j < |texts| && RubyInteger(texts[j]).Failure?
                          && Convert(texts, true).error == InvalidInteger(texts[j])
                          && forall i :: 0 <= i < j ==> RubyInteger(texts[i]).Success?
  {
    if |texts| > 0 {
      ConvertIntegers(texts[1..]);
      assert forall i :: 1 <= i < |texts| ==> texts[1..][i - 1] == texts[i];
      var r := Convert(texts, true);
      if RubyInteger(texts[0]).Success? && Convert(texts[1..], true).Failure? {
        var j :| 0 <= j < |texts[1..]| && RubyInteger(texts[1..][j]).Failure?
                 && Convert(texts[1..], true).error == InvalidInteger(texts[1..][j])
                 && forall i :: 0 <= i < j ==> RubyInteger(texts[1..][i]).Success?;
        assert texts[j + 1] == texts[1..][j];
      }
    }
  }

  /** The split is unique and is exactly what the segment description
      finds: a split exists iff Segmented succeeds, and then Segmented
      consumes the parts and yields them. */
  lemma {:induction false} SplitIffSegmented(cls: CharClass, path: string, n: nat)
    ensures Segmented(cls, path, n).Some? <==> exists parts, rest :: IsSplit(cls, path, n, parts, rest)
    ensures forall parts, rest :: IsSplit(cls, path, n, parts, rest) ==>
              Segmented(cls, path, n) == Some(RegexMatch(|SlashJoin(parts)|, parts))
  {
    forall parts, rest | IsSplit(cls, path, n, parts, rest)
      ensures Segmented(cls, path, n) == Some(RegexMatch(|SlashJoin(parts)|, parts))
    {
      if n > 0 {
        SegmentedComplete(cls, parts, rest);
      }
    }
    var r := Segmented(cls, path, n);
    if r.Some? {
      SegmentedSound(cls, path, n);
      var parts := r.value.captures;
      var rest := path[r.value.len..];
      assert path == path[..r.value.len] + rest;
      if n == 0 {
        assert r.value.len == 0;
      }
      assert IsSplit(cls, path, n, parts, rest);
    }
  }

  /** Any supported variable type: when the repeated pattern matches and
      its captures convert, the block runs on the matched text moved to
      SCRIPT_NAME, with the converted values appended. */
  lemma {:induction false} VariableEnters(prepend: string, t: VarType, n: nat, block: seq<Route>, ctx: Context,
                                          c: Cursor, caps: seq<Capture>, m: RegexMatch, vs: seq<Capture>)
    requires !t.Other?
    requires MatchAtoms(Repeat(prepend, CaptureAtom(t), n), c.pathInfo) == Some(m)
    requires Convert(m.captures, t.IntegerType?) == Success(vs)
    ensures EvalVariable(prepend, t, n, block, ctx, c, caps) ==
              Enter(block, ctx, Moved(c, c.pathInfo[..m.len]), caps + vs, c)
  {
    WithPathPartEnters(m.len, block, ctx, c, caps, vs);
  }

  /** variable with no type: enters iff PATH_INFO begins with n slash-led
      segments of non-slash characters; consumes exactly those segments
      and yields their texts, left to right. */
  lemma {:induction false} VariableSpec(n: nat, block: seq<Route>, ctx: Context, c: Cursor, caps: seq<Capture>)
    ensures (forall parts, rest :: !IsSplit(NonSlash, c.pathInfo, n, parts, rest)) ==>
              EvalVariable("/", Untyped, n, block, ctx, c, caps) == Step(Continue, c)
    ensures forall parts, rest :: IsSplit(NonSlash, c.pathInfo, n, parts, rest) ==>
              EvalVariable("/", Untyped, n, block, ctx, c, caps) ==
                Enter(block, ctx, Moved(c, SlashJoin(parts)), caps + Texts(parts), c)
  {
    VariablePatternSegments(NonSlash, c.pathInfo, n);
    SplitIffSegmented(NonSlash, c.pathInfo, n);
    forall parts, rest | IsSplit(NonSlash, c.pathInfo, n, parts, rest)
      ensures EvalVariable("/", Untyped, n, block, ctx, c, caps) ==
                Enter(block, ctx, Moved(c, SlashJoin(parts)), caps + Texts(parts), c)
    {
      ConvertTexts(parts);
      WithPathPartEnters(|SlashJoin(parts)|, block, ctx, c, caps, Texts(parts));
      assert c.pathInfo[..|SlashJoin(parts)|] == SlashJoin(parts);
    }
  }

  /** variable(Integer): the same split over digit runs; the block gets
      Integer() of each text, and a text Integer() rejects (a leading
      zero followed by 8 or 9) raises after the segments are consumed. */
  lemma {:induction false} VariableIntegerSpec(n: nat, block: seq<Route>, ctx: Context, c: Cursor, caps: seq<Capture>)
    ensures (forall parts, rest :: !IsSplit(Digit, c.pathInfo, n, parts, rest)) ==>
              EvalVariable("/", IntegerType, n, block, ctx, c, caps) == Step(Continue, c)
    ensures forall parts, rest :: IsSplit(Digit, c.pathInfo, n, parts, rest) ==>
              EvalVariable("/", IntegerType, n, block, ctx, c, caps) ==
                match Convert(parts, true)
                case Success(vs) => Enter(block, ctx, Moved(c, SlashJoin(parts)), caps + vs, c)
                case Failure(e) => Step(Raised(e), Moved(c, SlashJoin(parts)))
  {
    VariablePatternSegments(Digit, c.pathInfo, n);
    SplitIffSegmented(Digit, c.pathInfo, n);
    forall parts, rest | IsSplit(Digit, c.pathInfo, n, parts, rest)
      ensures EvalVariable("/", IntegerType, n, block, ctx, c, caps) ==
                match Convert(parts, true)
                case Success(vs) => Enter(block, ctx, Moved(c, SlashJoin(parts)), caps + vs, c)
                case Failure(e) => Step(Raised(e), Moved(c, SlashJoin(parts)))
    {
      assert c.pathInfo[..|SlashJoin(parts)|] == SlashJoin(parts);
      match Convert(parts, true)
      case Success(vs) =>
        WithPathPartEnters(|SlashJoin(parts)|, block, ctx, c, caps, vs);
      case Failure(e) =>
    }
  }

  /** Any type other than nil, Integer or a Regexp raises, for both
      variable and partial_variable, before the path is touched. */
  lemma {:induction false} UnknownVariableTypeRaises(prepend: string, name: string, n: nat, block: seq<Route>,
                                  ctx: Context, c: Cursor, caps: seq<Capture>)
    ensures EvalVariable(prepend, Other(name), n, block, ctx, c, caps) ==
              Step(Raised(UnexpectedVariableType(name)), c)
  {
  }

  // ----- remainder and complete -----

  /** remainder always enters, with all of PATH_INFO consumed and yielded. */
  lemma {:induction false} RemainderSpec(block: seq<Route>, ctx: Context, c: Cursor, caps: seq<Capture>)
    ensures EvalRemainder(block, ctx, c, caps) ==
              Enter(block, ctx, Cursor(c.scriptName + c.pathInfo, ""), caps + [Str(c.pathInfo)], c)
  {
    WithPathPartEnters(|c.pathInfo|, block, ctx, c, caps, [Str(c.pathInfo)]);
    assert c.pathInfo[..|c.pathInfo|] == c.pathInfo;
  }

  /** complete enters iff PATH_INFO is empty or the request was an index
      request; the block then sees an empty PATH_INFO. */
  lemma {:induction false} CompleteSpec(block: seq<Route>, ctx: Context, c: Cursor, caps: seq<Capture>)
    ensures !(c.pathInfo == "" || ctx.isIndex) ==> EvalComplete(block, ctx, c, caps) == Step(Continue, c)
    ensures c.pathInfo == "" || ctx.isIndex ==>
              EvalComplete(block, ctx, c, caps) ==
                Enter(block, ctx, Cursor(c.scriptName + c.pathInfo, ""), caps, c)
  {
    if c.pathInfo == "" || ctx.isIndex {
      WithPathPartEnters(|c.pathInfo|, block, ctx, c, caps, []);
      assert c.pathInfo[..|c.pathInfo|] == c.pathInfo;
      assert caps + [] == caps;
    }
  }

  /** get/post/put/delete: nothing happens for another request method;
      for the same method, complete (no path) or whole_path (path). */
  lemma {:induction false} RequestMethodSpec(m: string, path: Option<string>, block: seq<Route>,
                          ctx: Context, c: Cursor, caps: seq<Capture>)
    ensures ctx.requestMethod != m ==> EvalRequestMethod(m, path, block, ctx, c, caps) == Step(Continue, c)
    ensures ctx.requestMethod == m && path.None? ==>
              EvalRequestMethod(m, path, block, ctx, c, caps) == EvalComplete(block, ctx, c, caps)
    ensures ctx.requestMethod == m && path.Some? ==>
              EvalRequestMethod(m, path, block, ctx, c, caps) ==
                EvalPath(path.value, [Complete(block)], ctx, c, caps)
  {
  }

  lemma {:induction false} GetAnswersOnlyGet(path: Option<string>, block: seq<Route>, ctx: Context, c: Cursor, caps: seq<Capture>)
    ensures ctx.requestMethod != "GET" ==> EvalRoute(Get(path, block), ctx, c, caps) == Step(Continue, c)
  {
  }

  // ----- query, query_string, extension -----

  /** The values named, in order, when every name is a parameter. */
  lemma {:induction false} LookupSpec(names: seq<string>, params: map<string, string>)
    ensures Lookup(names, params).Some? <==> forall i :: 0 <= i < |names| ==> names[i] in params
    ensures Lookup(names, params).Some? ==>
              && |Lookup(names, params).value| == |names|
              && forall i :: 0 <= i < |names| ==> Lookup(names, params).value[i] == Str(params[names[i]])
  {
    if |names| > 0 {
      LookupSpec(names[1..], params);
      assert forall i :: 1 <= i < |names| ==> names[1..][i - 1] == names[i];
    }
  }

  /** query(map): the block runs, on the same path, exactly when every
      expected key is a parameter with the expected value (so always for
      an empty map); a key whose value differs or is absent keeps it from
      running. */
  lemma {:induction false} QueryParamsSpec(expected: map<string, string>, block: seq<Route>, ctx: Context, c: Cursor, caps: seq<Capture>)
    ensures expected == map[] ==> EvalQueryParams(expected, block, ctx, c, caps) == Eval(block, ctx, c, caps)
    ensures (forall k :: k in expected ==> k in ctx.params && ctx.params[k] == expected[k]) ==>
              EvalQueryParams(expected, block, ctx, c, caps) == Eval(block, ctx, c, caps)
    ensures (exists k :: k in expected && (k !in ctx.params || ctx.params[k] != expected[k])) ==>
              EvalQueryParams(expected, block, ctx, c, caps) == Step(Continue, c)
  {
  }

  /** query(names): yields the parameter values in the order named iff
      all are present; the path is never consumed. */
  lemma {:induction false} QueryNamesSpec(names: seq<string>, block: seq<Route>, ctx: Context, c: Cursor, caps: seq<Capture>)
    ensures (exists i :: 0 <= i < |names| && names[i] !in ctx.params) ==>
              EvalQueryNames(names, block, ctx, c, caps) == Step(Continue, c)
    ensures (forall i :: 0 <= i < |names| ==> names[i] in ctx.params) ==>
              exists vs :: && |vs| == |names|
                           && (forall i :: 0 <= i < |names| ==> vs[i] == Str(ctx.params[names[i]]))
                           && EvalQueryNames(names, block, ctx, c, caps) == Eval(block, ctx, c, caps + vs)
  {
    LookupSpec(names, ctx.params);
  }

  /** extension(e) enters only when the detected extension is e. It then
      searches PATH_INFO for the unanchored `/?.e` (the leftmost match,
      slash first, as `part` does) and moves as many characters from the
      front as that match has; when PATH_INFO holds no such text (the dot
      was in SCRIPT_NAME's part of the request) the block runs where it is.
      no_extension runs its block iff none was detected. */
  lemma {:induction false} ExtensionSpec(e: string, block: seq<Route>, ctx: Context, c: Cursor, caps: seq<Capture>)
    ensures ctx.detectedExtension != Some(e) ==> EvalExtension(e, block, ctx, c, caps) == Step(Continue, c)
    ensures ctx.detectedExtension == Some(e) && PartMatch("." + e, c.pathInfo).Some? ==>
              EvalExtension(e, block, ctx, c, caps) ==
                Enter(block, ctx, Moved(c, c.pathInfo[..|PartMatch("." + e, c.pathInfo).value|]), caps, c)
    ensures ctx.detectedExtension == Some(e) && PartMatch("." + e, c.pathInfo).None? ==>
              EvalExtension(e, block, ctx, c, caps) == Eval(block, ctx, c, caps)
    ensures ctx.detectedExtension.Some? ==> EvalNoExtension(block, ctx, c, caps) == Step(Continue, c)
    ensures ctx.detectedExtension.None? ==> EvalNoExtension(block, ctx, c, caps) == Eval(block, ctx, c, caps)
  {
    var m := PartMatch("." + e, c.pathInfo);
    if m.Some? {
      WithPathPartEnters(|m.value|, block, ctx, c, caps, []);
      assert caps + [] == caps;
    }
  }

  // ----- halting -----

  /** For every matcher that moves part of the path: when its block halts
      or raises, that outcome and the block's cursor are the matcher's, so
      the moved part stays in SCRIPT_NAME (the restore after the block does
      not run); only a normal return puts the cursor back. */
  lemma {:induction false} HaltKeepsConsumed(n: nat, block: seq<Route>, ctx: Context, c: Cursor,
                                             caps: seq<Capture>, vs: seq<Capture>)
    requires n <= |c.pathInfo|
    ensures var inner := Eval(block, ctx, Moved(c, c.pathInfo[..n]), caps + vs);
            var s := EvalWithPathPart(n, block, ctx, c, caps, Success(vs));
            && (s.outcome.Continue? <==> inner.outcome.Continue?)
            && (!inner.outcome.Continue? ==> s == inner && c.scriptName + c.pathInfo[..n] <= s.cursor.scriptName)
            && (inner.outcome.Continue? ==> s.cursor == c)
  {
    WithPathPartEnters(n, block, ctx, c, caps, vs);
  }

  /** One instance: a halt inside `path(p)` leaves "/p" consumed. */
  lemma {:induction false} HaltSkipsRestore(p: string, args: seq<ResponseValue>, ctx: Context, c: Cursor, caps: seq<Capture>)
    requires p != "" && p[0] != '/'
    requires "/" + p <= c.pathInfo && c.pathInfo != "/" + p + "/"
    requires HaltBang(args).Halted?
    ensures EvalPath(p, [Handler(false, _ => Some(args))], ctx, c, caps) ==
              Step(HaltBang(args), Moved(c, "/" + p))
  {
    PathSpec(p, [Handler(false, _ => Some(args))], ctx, c, caps);
    var inner := Moved(c, "/" + p);
    assert [Handler(false, _ => Some(args))][1..] == [];
  }

  /** A strict halt with path left raises; with the path consumed it is halt!. */
  lemma {:induction false} StrictHandlerChecksPath(args: seq<ResponseValue>, c: Cursor, caps: seq<Capture>)
    ensures c.pathInfo != "" ==>
              EvalHandler(true, _ => Some(args), c, caps) == Step(Raised(UnconsumedPath(c.pathInfo)), c)
    ensures c.pathInfo == "" ==>
              EvalHandler(true, _ => Some(args), c, caps) == EvalHandler(false, _ => Some(args), c, caps)
  {
  }
}

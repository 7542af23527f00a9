/** The request-handling object: an Application holds the route block,
    receives the Rack environment in `call`, and routes by updating
    SCRIPT_NAME and PATH_INFO in place. Each method is proved to do what
    the matching function of `Routing` describes. */
module Core {
  import opened Wrappers
  import opened Patterns
  import opened Responding
  import opened Routing
  import opened RequestContext

  /** The Rack environment. Routing reassigns the two path entries; the
      others it only reads. */
  class Env {
    var scriptName: string
    var pathInfo: string
    const requestMethod: string
    const queryString: string
    const params: map<string, string>

    constructor(req: Request)
      ensures scriptName == req.scriptName && pathInfo == req.pathInfo
      ensures requestMethod == req.requestMethod && queryString == req.queryString
      ensures params == req.params
    {
      scriptName := req.scriptName;
      pathInfo := req.pathInfo;
      requestMethod := req.requestMethod;
      queryString := req.queryString;
      params := req.params;
    }

    function Cur(): Cursor
      reads this
    {
      Cursor(scriptName, pathInfo)
    }
  }

  class Application {
    const root: seq<Route>
    var env: Env?
    var detectedExtension: Option<string>
    var isIndexRequest: bool

    constructor(root: seq<Route>)
      ensures this.root == root && env == null
    {
      this.root := root;
      env := null;
      detectedExtension := None;
      isIndexRequest := false;
    }

    function Ctx(): Context
      reads this
      requires env != null
    {
      Context(env.requestMethod, env.queryString, env.params, detectedExtension, isIndexRequest)
    }

    /** call(env): the extension and index flag are set once from the
        original PATH_INFO, then the block runs; a normal return gives 404.
        The environment is left where the block left it: restored after a
        normal return, and with the consumed path still in SCRIPT_NAME
        after a halt or a raise. */
    method Call(e: Env) returns (a: Answer)
      modifies this, e
      ensures env == e
      ensures detectedExtension == DetectExtension(old(e.pathInfo)) && isIndexRequest == IsIndexPath(old(e.pathInfo))
      ensures e.Cur() == Eval(root, ContextFor(Request(e.requestMethod, old(e.scriptName), old(e.pathInfo), e.queryString, e.params)),
                              Cursor(old(e.scriptName), old(e.pathInfo)), []).cursor
      ensures a == Serve(root, Request(e.requestMethod, old(e.scriptName), old(e.pathInfo), e.queryString, e.params))
    {
      env := e;
      detectedExtension := DetectExtension(e.pathInfo);
      isIndexRequest := IsIndexPath(e.pathInfo);
      var o := Run(root, []);
      a := AnswerFor(o);
    }

    /** with_path_part. */
    method WithPathPart(n: nat, block: seq<Route>, caps: seq<Capture>, args: Result<seq<Capture>, Failure>)
      returns (o: Outcome)
      requires env != null && n <= |env.pathInfo|
      modifies env
      ensures Step(o, env.Cur()) == EvalWithPathPart(n, block, Ctx(), old(env.Cur()), caps, args)
      decreases BlockSize(block), 2
    {
      var oldPathInfo := env.pathInfo;
      var oldScriptName := env.scriptName;
      var scriptPart, remainingPart := oldPathInfo[..n], oldPathInfo[n..];
      env.scriptName := env.scriptName + scriptPart;
      env.pathInfo := remainingPart;
      match args {
        case Failure(e) =>
          return Raised(e);
        case Success(vs) =>
          o := Run(block, caps + vs);
      }
      if o.Continue? {
        env.pathInfo := oldPathInfo;
        env.scriptName := oldScriptName;
      }
    }

    /** The declarations of a block, in order, until one does not return. */
    method Run(block: seq<Route>, caps: seq<Capture>) returns (o: Outcome)
      requires env != null
      modifies env
      ensures Step(o, env.Cur()) == Eval(block, Ctx(), old(env.Cur()), caps)
      decreases BlockSize(block), 1
    {
      var rest := block;
      o := Continue;
      while |rest| > 0 && o.Continue?
        invariant BlockSize(rest) <= BlockSize(block)
        invariant Eval(block, Ctx(), old(env.Cur()), caps) ==
                    if o.Continue? then Eval(rest, Ctx(), env.Cur(), caps) else Step(o, env.Cur())
        decreases |rest|
      {
        o := RunRoute(rest[0], caps);
        rest := rest[1..];
      }
    }

    method RunRoute(r: Route, caps: seq<Capture>) returns (o: Outcome)
      requires env != null
      modifies env
      ensures Step(o, env.Cur()) == EvalRoute(r, Ctx(), old(env.Cur()), caps)
      decreases Size(r), 0
    {
      match r {
        case Path(p, b) => o := MatchPath(p, b, caps);
        case WholePath(p, b) => o := MatchWholePath(p, b, caps);
        case ExactPath(p, b) => o := MatchExactPath(p, b, caps);
        case Part(p, b) => o := MatchPart(p, b, caps);
        case Variable(t, n, b) => o := MatchVariable("/", t, n, b, caps);
        case PartialVariable(t, n, b) => o := MatchVariable("", t, n, b, caps);
        case Extension(e, b) => o := MatchExtension(e, b, caps);
        case NoExtension(b) => o := MatchNoExtension(b, caps);
        case Remainder(b) => o := MatchRemainder(b, caps);
        case Complete(b) => o := MatchComplete(b, caps);
        case QueryParams(q, b) => o := MatchQueryParams(q, b, caps);
        case QueryNames(q, b) => o := MatchQueryNames(q, b, caps);
        case QueryString(qs, b) => o := MatchQueryString(qs, b, caps);
        case RequestMethod(m, p, b) => o := MatchRequestMethod(m, p, b, caps);
        case Handler(strict, action) => o := RunHandler(strict, action, caps);
      }
    }

    method MatchPath(p: string, block: seq<Route>, caps: seq<Capture>) returns (o: Outcome)
      requires env != null
      modifies env
      ensures Step(o, env.Cur()) == EvalPath(p, block, Ctx(), old(env.Cur()), caps)
      decreases BlockSize(block), 3
    {
      var m := PathMatch(StripLeadingSlash(p), env.pathInfo);
      if m.Some? {
        o := WithPathPart(|m.value|, block, caps, Success([]));
      } else {
        o := Continue;
      }
    }

    method MatchWholePath(p: string, block: seq<Route>, caps: seq<Capture>) returns (o: Outcome)
      requires env != null
      modifies env
      ensures Step(o, env.Cur()) == EvalWholePath(p, block, Ctx(), old(env.Cur()), caps)
      decreases 2 + BlockSize(block), 3
    {
      SingletonSize(Complete(block));
      o := MatchPath(p, [Complete(block)], caps);
    }

    method MatchExactPath(p: string, block: seq<Route>, caps: seq<Capture>) returns (o: Outcome)
      requires env != null
      modifies env
      ensures Step(o, env.Cur()) == EvalExactPath(p, block, Ctx(), old(env.Cur()), caps)
      decreases BlockSize(block), 3
    {
      if |p| > 0 && p[0] == '/' {
        return Raised(MissingPartArgument);
      }
      var m := ExactMatch(p, env.pathInfo);
      if m.Some? {
        o := WithPathPart(|m.value|, block, caps, Success([]));
      } else {
        o := Continue;
      }
    }

    method MatchPart(p: string, block: seq<Route>, caps: seq<Capture>) returns (o: Outcome)
      requires env != null
      modifies env
      ensures Step(o, env.Cur()) == EvalPart(p, block, Ctx(), old(env.Cur()), caps)
      decreases BlockSize(block), 3
    {
      var m := PartMatch(p, env.pathInfo);
      if m.Some? {
        o := WithPathPart(|m.value|, block, caps, Success([]));
      } else {
        o := Continue;
      }
    }

    /** partial_variable / variable / complex_variable. */
    method MatchVariable(prepend: string, t: VarType, count: nat, block: seq<Route>, caps: seq<Capture>)
      returns (o: Outcome)
      requires env != null
      modifies env
      ensures Step(o, env.Cur()) == EvalVariable(prepend, t, count, block, Ctx(), old(env.Cur()), caps)
      decreases BlockSize(block), 3
    {
      if t.Other? {
        return Raised(UnexpectedVariableType(t.name));
      }
      var m := MatchAtoms(Repeat(prepend, CaptureAtom(t), count), env.pathInfo);
      if m.Some? {
        o := WithPathPart(m.value.len, block, caps, Convert(m.value.captures, t.IntegerType?));
      } else {
        o := Continue;
      }
    }

    method MatchExtension(e: string, block: seq<Route>, caps: seq<Capture>) returns (o: Outcome)
      requires env != null
      modifies env
      ensures Step(o, env.Cur()) == EvalExtension(e, block, Ctx(), old(env.Cur()), caps)
      decreases BlockSize(block), 3
    {
      if detectedExtension != Some(e) {
        return Continue;
      }
      var m := PartMatch("." + e, env.pathInfo);
      if m.Some? {
        o := WithPathPart(|m.value|, block, caps, Success([]));
      } else {
        o := Run(block, caps);
      }
    }

    method MatchNoExtension(block: seq<Route>, caps: seq<Capture>) returns (o: Outcome)
      requires env != null
      modifies env
      ensures Step(o, env.Cur()) == EvalNoExtension(block, Ctx(), old(env.Cur()), caps)
      decreases BlockSize(block), 3
    {
      if detectedExtension.None? {
        o := Run(block, caps);
      } else {
        o := Continue;
      }
    }

    method MatchRemainder(block: seq<Route>, caps: seq<Capture>) returns (o: Outcome)
      requires env != null
      modifies env
      ensures Step(o, env.Cur()) == EvalRemainder(block, Ctx(), old(env.Cur()), caps)
      decreases BlockSize(block), 3
    {
      o := WithPathPart(|env.pathInfo|, block, caps, Success([Str(env.pathInfo)]));
    }

    method MatchComplete(block: seq<Route>, caps: seq<Capture>) returns (o: Outcome)
      requires env != null
      modifies env
      ensures Step(o, env.Cur()) == EvalComplete(block, Ctx(), old(env.Cur()), caps)
      decreases BlockSize(block), 3
    {
      if env.pathInfo == "" || isIndexRequest {
        o := WithPathPart(|env.pathInfo|, block, caps, Success([]));
      } else {
        o := Continue;
      }
    }

    method MatchQueryParams(expected: map<string, string>, block: seq<Route>, caps: seq<Capture>)
      returns (o: Outcome)
      requires env != null
      modifies env
      ensures Step(o, env.Cur()) == EvalQueryParams(expected, block, Ctx(), old(env.Cur()), caps)
      decreases BlockSize(block), 3
    {
      if ParamsAgree(expected, env.params) {
        o := Run(block, caps);
      } else {
        o := Continue;
      }
    }

    /** query(Array): the values are collected in order, and the first
        absent name returns without running the block. */
    method MatchQueryNames(names: seq<string>, block: seq<Route>, caps: seq<Capture>) returns (o: Outcome)
      requires env != null
      modifies env
      ensures Step(o, env.Cur()) == EvalQueryNames(names, block, Ctx(), old(env.Cur()), caps)
      decreases BlockSize(block), 3
    {
      var values: seq<Capture> := [];
      var i := 0;
      assert names[0..] == names;
      match Lookup(names, env.params) {
        case Some(vs) => assert [] + vs == vs;
        case None =>
      }
      while i < |names|
        invariant 0 <= i <= |names|
        invariant env.Cur() == old(env.Cur())
        invariant Lookup(names, env.params) ==
                    match Lookup(names[i..], env.params)
                    case None => None
                    case Some(vs) => Some(values + vs)
      {
        if names[i] !in env.params {
          LookupStops(names, env.params, i);
          return Continue;
        }
        LookupStep(names, env.params, i);
        var v := Str(env.params[names[i]]);
        match Lookup(names[i + 1..], env.params) {
          case Some(vs) => assert values + ([v] + vs) == (values + [v]) + vs;
          case None =>
        }
        values := values + [v];
        i := i + 1;
      }
      assert names[i..] == [];
      assert values + [] == values;
      o := Run(block, caps + values);
    }

    method MatchQueryString(qs: string, block: seq<Route>, caps: seq<Capture>) returns (o: Outcome)
      requires env != null
      modifies env
      ensures Step(o, env.Cur()) == EvalQueryString(qs, block, Ctx(), old(env.Cur()), caps)
      decreases BlockSize(block), 3
    {
      if qs == env.queryString {
        o := Run(block, caps);
      } else {
        o := Continue;
      }
    }

    /** request_method, and so get/post/put/delete. */
    method MatchRequestMethod(m: string, path: Option<string>, block: seq<Route>, caps: seq<Capture>)
      returns (o: Outcome)
      requires env != null
      modifies env
      ensures Step(o, env.Cur()) == EvalRequestMethod(m, path, block, Ctx(), old(env.Cur()), caps)
      decreases 3 + BlockSize(block), 3
    {
      if env.requestMethod != m {
        return Continue;
      }
      if path.Some? {
        o := MatchWholePath(path.value, block, caps);
      } else {
        o := MatchComplete(block, caps);
      }
    }

    /** The block's own code: halt checks PATH_INFO, halt! does not. */
    method RunHandler(strict: bool, action: seq<Capture> -> Option<seq<ResponseValue>>, caps: seq<Capture>)
      returns (o: Outcome)
      requires env != null
      ensures Step(o, env.Cur()) == EvalHandler(strict, action, env.Cur(), caps)
    {
      var args := action(caps);
      if args.None? {
        return Continue;
      }
      if strict {
        o := Halt(env.pathInfo, args.value);
      } else {
        o := HaltBang(args.value);
      }
    }
  }

  /** One unfolding of Lookup at position i, when the name is present. */
  lemma {:induction false} LookupStep(names: seq<string>, params: map<string, string>, i: nat)
    requires i < |names| && names[i] in params
    ensures Lookup(names[i..], params) ==
              match Lookup(names[i + 1..], params)
              case None => None
              case Some(vs) => Some([Str(params[names[i]])] + vs)
  {
    assert names[i..][1..] == names[i + 1..];
  }

  lemma {:induction false} LookupStops(names: seq<string>, params: map<string, string>, i: nat)
    requires i < |names| && names[i] !in params
    ensures Lookup(names[i..], params) == None
  {
  }

  /** Renee::Core#call: every request gets a fresh Application and a
      fresh environment, so nothing carries over between requests. */
  method Handle(root: seq<Route>, req: Request) returns (a: Answer)
    ensures a == Serve(root, req)
  {
    var e := new Env(req);
    var app := new Application(root);
    a := app.Call(e);
  }
}

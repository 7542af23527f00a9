/** The route declarations of routing.rb as data, and what running them
    does to the request cursor (SCRIPT_NAME, PATH_INFO).

    A route block is a sequence of declarations run in order. Each
    declaration is a matcher with its nested block, or a `Handler`: the
    block's own code, which may call `halt`/`halt!` with values computed
    from the arguments the enclosing matchers yielded. Those arguments
    accumulate outermost first, as the closures of nested Ruby blocks see
    them. */
module Routing {
  import opened Wrappers
  import opened Text
  import opened Patterns
  import opened Responding

  /** A value yielded to a block: a path text, or an integer from a
      variable declared with the Integer type. */
  datatype Capture = Str(s: string) | Num(n: int)

  /** The type argument of `variable` / `partial_variable`: nil, Integer,
      a Regexp (an alternation of literal texts here), or anything else. */
  datatype VarType =
    | Untyped
    | IntegerType
    | Pattern(alternatives: seq<string>)
    | Other(name: string)

  datatype Route =
    | Path(p: string, block: seq<Route>)
    | WholePath(p: string, block: seq<Route>)
    | ExactPath(p: string, block: seq<Route>)
    | Part(p: string, block: seq<Route>)
    | Variable(vtype: VarType, count: nat, block: seq<Route>)          // count: the block's arity
    | PartialVariable(vtype: VarType, count: nat, block: seq<Route>)
    | Extension(ext: string, block: seq<Route>)
    | NoExtension(block: seq<Route>)
    | Remainder(block: seq<Route>)
    | Complete(block: seq<Route>)
    | QueryParams(expected: map<string, string>, block: seq<Route>)   // query(Hash)
    | QueryNames(names: seq<string>, block: seq<Route>)               // query(Array) and query(key)
    | QueryString(qs: string, block: seq<Route>)
    | RequestMethod(verb: string, path: Option<string>, block: seq<Route>)
    | Handler(strict: bool, action: seq<Capture> -> Option<seq<ResponseValue>>)
      // action(captures) == Some(args): the code calls `halt(*args)` (strict)
      // or `halt!(*args)`; None: it returns without halting.

  function Get(path: Option<string>, block: seq<Route>): Route {
    RequestMethod("GET", path, block)
  }

  function Post(path: Option<string>, block: seq<Route>): Route {
    RequestMethod("POST", path, block)
  }

  function Put(path: Option<string>, block: seq<Route>): Route {
    RequestMethod("PUT", path, block)
  }

  function Delete(path: Option<string>, block: seq<Route>): Route {
    RequestMethod("DELETE", path, block)
  }

  /** The consumed prefix and the remaining path. */
  datatype Cursor = Cursor(scriptName: string, pathInfo: string)

  /** What a request fixes before routing starts: the method, the query
      string, the parsed parameters, and the two values `call` derives
      once from the original PATH_INFO. */
  datatype Context = Context(
    requestMethod: string,
    queryString: string,
    params: map<string, string>,
    detectedExtension: Option<string>,
    isIndex: bool)

  /** The outcome of a declaration and the cursor it leaves behind. */
  datatype Step = Step(outcome: Outcome, cursor: Cursor)

  /** What every declaration keeps: the full path is never altered, the
      consumed prefix only grows, and a declaration that returns normally
      leaves the cursor exactly as it found it. */
  predicate Keeps(c: Cursor, s: Step) {
    && s.cursor.scriptName + s.cursor.pathInfo == c.scriptName + c.pathInfo
    && c.scriptName <= s.cursor.scriptName
    && (s.outcome.Continue? ==> s.cursor == c)
  }

  // ----- termination measure -----

  function Size(r: Route): (n: nat)
    ensures n >= 1
  {
    match r
    case Path(_, b) => 1 + BlockSize(b)
    case WholePath(_, b) => 3 + BlockSize(b)
    case ExactPath(_, b) => 1 + BlockSize(b)
    case Part(_, b) => 1 + BlockSize(b)
    case Variable(_, _, b) => 1 + BlockSize(b)
    case PartialVariable(_, _, b) => 1 + BlockSize(b)
    case Extension(_, b) => 1 + BlockSize(b)
    case NoExtension(b) => 1 + BlockSize(b)
    case Remainder(b) => 1 + BlockSize(b)
    case Complete(b) => 1 + BlockSize(b)
    case QueryParams(_, b) => 1 + BlockSize(b)
    case QueryNames(_, b) => 1 + BlockSize(b)
    case QueryString(_, b) => 1 + BlockSize(b)
    case RequestMethod(_, _, b) => 4 + BlockSize(b)
    case Handler(_, _) => 1
  }

  function BlockSize(bs: seq<Route>): nat {
    if |bs| == 0 then 0 else Size(bs[0]) + BlockSize(bs[1..])
  }

  lemma {:induction false} SingletonSize(r: Route)
    ensures BlockSize([r]) == Size(r)
  {
    assert [r][1..] == [];
  }

  // ----- the cursor -----

  lemma {:induction false} SplitRejoins(sn: string, pi: string, n: nat)
    requires n <= |pi|
    ensures (sn + pi[..n]) + pi[n..] == sn + pi
    ensures sn <= sn + pi[..n]
  {
    assert pi[..n] + pi[n..] == pi;
  }

  /** with_path_part: the first n characters of PATH_INFO move onto
      SCRIPT_NAME, the block runs with the yielded `args` added to the
      captures, and both are put back only when the block returns
      normally. `args` is computed inside the block in Ruby, so its
      failure is raised with the cursor already moved. */
  function EvalWithPathPart(n: nat, block: seq<Route>, ctx: Context, c: Cursor,
                            caps: seq<Capture>, args: Result<seq<Capture>, Failure>): (s: Step)
    requires n <= |c.pathInfo|
    ensures Keeps(c, s)
    decreases BlockSize(block), 2
  {
    var inner := Cursor(c.scriptName + c.pathInfo[..n], c.pathInfo[n..]);
    SplitRejoins(c.scriptName, c.pathInfo, n);
    match args
    case Failure(e) => Step(Raised(e), inner)
    case Success(vs) =>
      var s := Eval(block, ctx, inner, caps + vs);
      if s.outcome.Continue? then Step(Continue, c) else s
  }

  /** A block: declarations in order until one halts or raises. */
  function Eval(block: seq<Route>, ctx: Context, c: Cursor, caps: seq<Capture>): (s: Step)
    ensures Keeps(c, s)
    decreases BlockSize(block), 1
  {
    if |block| == 0 then Step(Continue, c)
    else
      var first := EvalRoute(block[0], ctx, c, caps);
      if first.outcome.Continue? then Eval(block[1..], ctx, first.cursor, caps) else first
  }

  function EvalRoute(r: Route, ctx: Context, c: Cursor, caps: seq<Capture>): (s: Step)
    ensures Keeps(c, s)
    decreases Size(r), 0
  {
    match r
    case Path(p, b) => EvalPath(p, b, ctx, c, caps)
    case WholePath(p, b) => EvalWholePath(p, b, ctx, c, caps)
    case ExactPath(p, b) => EvalExactPath(p, b, ctx, c, caps)
    case Part(p, b) => EvalPart(p, b, ctx, c, caps)
    case Variable(t, n, b) => EvalVariable("/", t, n, b, ctx, c, caps)
    case PartialVariable(t, n, b) => EvalVariable("", t, n, b, ctx, c, caps)
    case Extension(e, b) => EvalExtension(e, b, ctx, c, caps)
    case NoExtension(b) => EvalNoExtension(b, ctx, c, caps)
    case Remainder(b) => EvalRemainder(b, ctx, c, caps)
    case Complete(b) => EvalComplete(b, ctx, c, caps)
    case QueryParams(q, b) => EvalQueryParams(q, b, ctx, c, caps)
    case QueryNames(q, b) => EvalQueryNames(q, b, ctx, c, caps)
    case QueryString(qs, b) => EvalQueryString(qs, b, ctx, c, caps)
    case RequestMethod(m, p, b) => EvalRequestMethod(m, p, b, ctx, c, caps)
    case Handler(strict, action) => EvalHandler(strict, action, c, caps)
  }

  // ----- the matchers -----

  /** path(p): a leading slash of p is dropped, then `/^\/p(\/?$)?/`. */
  function EvalPath(p: string, block: seq<Route>, ctx: Context, c: Cursor, caps: seq<Capture>): (s: Step)
    ensures Keeps(c, s)
    decreases BlockSize(block), 3
  {
    match PathMatch(StripLeadingSlash(p), c.pathInfo)
    case None => Step(Continue, c)
    case Some(m) => EvalWithPathPart(|m|, block, ctx, c, caps, Success([]))
  }

  /** whole_path(p): path(p) { complete { ... } }. */
  function EvalWholePath(p: string, block: seq<Route>, ctx: Context, c: Cursor, caps: seq<Capture>): (s: Step)
    ensures Keeps(c, s)
    decreases 2 + BlockSize(block), 3
  {
    SingletonSize(Complete(block));
    EvalPath(p, [Complete(block)], ctx, c, caps)
  }

  /** exact_path(p): `/^\/p/`. With a leading slash, the code evaluates
      `part.size`, a call of `part` without its argument, which raises. */
  function EvalExactPath(p: string, block: seq<Route>, ctx: Context, c: Cursor, caps: seq<Capture>): (s: Step)
    ensures Keeps(c, s)
    decreases BlockSize(block), 3
  {
    if |p| > 0 && p[0] == '/' then Step(Raised(MissingPartArgument), c)
    else
      match ExactMatch(p, c.pathInfo)
      case None => Step(Continue, c)
      case Some(m) => EvalWithPathPart(|m|, block, ctx, c, caps, Success([]))
  }

  /** part(p) with a String: the unanchored `/\/?p/`; as many characters
      as the match is long are taken from the front of PATH_INFO. */
  function EvalPart(p: string, block: seq<Route>, ctx: Context, c: Cursor, caps: seq<Capture>): (s: Step)
    ensures Keeps(c, s)
    decreases BlockSize(block), 3
  {
    match PartMatch(p, c.pathInfo)
    case None => Step(Continue, c)
    case Some(m) => EvalWithPathPart(|m|, block, ctx, c, caps, Success([]))
  }

  /** The capture group each variable type puts after the prepended text. */
  function CaptureAtom(t: VarType): Atom
    requires !t.Other?
  {
    match t
    case Untyped => Plus(NonSlash)
    case IntegerType => Plus(Digit)
    case Pattern(alts) => Alt(alts)
  }

  /** The transformer `Integer(v)` applied to each capture, left to right,
      or the texts as they are. The first text Integer rejects raises. */
  function Convert(texts: seq<string>, toInt: bool): (r: Result<seq<Capture>, Failure>)
    ensures r.Success? ==> |r.value| == |texts|
    ensures !toInt ==> r.Success?
  {
    if |texts| == 0 then Success([])
    else
      var head: Result<Capture, Failure> :=
        if !toInt then Success(Str(texts[0]))
        else match RubyInteger(texts[0])
          case Success(v) => Success(Num(v))
          case Failure(_) => Failure(InvalidInteger(texts[0]));
      match head
      case Failure(e) => Failure(e)
      case Success(v) =>
        match Convert(texts[1..], toInt)
        case Failure(e) => Failure(e)
        case Success(vs) => Success([v] + vs)
  }

  /** partial_variable (prepend "") and variable (prepend "/") with
      complex_variable: the pattern `prepend(group)` repeated `count` times
      and anchored at the start of PATH_INFO. An unsupported type raises
      before anything is matched. */
  function EvalVariable(prepend: string, t: VarType, count: nat, block: seq<Route>,
                        ctx: Context, c: Cursor, caps: seq<Capture>): (s: Step)
    ensures Keeps(c, s)
    decreases BlockSize(block), 3
  {
    if t.Other? then Step(Raised(UnexpectedVariableType(t.name)), c)
    else
      match MatchAtoms(Repeat(prepend, CaptureAtom(t), count), c.pathInfo)
      case None => Step(Continue, c)
      case Some(m) => EvalWithPathPart(m.len, block, ctx, c, caps, Convert(m.captures, t.IntegerType?))
  }

  /** extension(e): only when the detected extension is e; then `/\/?\.e/`
      is searched in PATH_INFO and, when found, that many characters are
      consumed; otherwise the block runs on the unchanged cursor. */
  function EvalExtension(e: string, block: seq<Route>, ctx: Context, c: Cursor, caps: seq<Capture>): (s: Step)
    ensures Keeps(c, s)
    decreases BlockSize(block), 3
  {
    if ctx.detectedExtension != Some(e) then Step(Continue, c)
    else
      match PartMatch("." + e, c.pathInfo)
      case Some(m) => EvalWithPathPart(|m|, block, ctx, c, caps, Success([]))
      case None => Eval(block, ctx, c, caps)
  }

  function EvalNoExtension(block: seq<Route>, ctx: Context, c: Cursor, caps: seq<Capture>): (s: Step)
    ensures Keeps(c, s)
    decreases BlockSize(block), 3
  {
    if ctx.detectedExtension.None? then Eval(block, ctx, c, caps) else Step(Continue, c)
  }

  /** remainder: consumes all of PATH_INFO and yields it. */
  function EvalRemainder(block: seq<Route>, ctx: Context, c: Cursor, caps: seq<Capture>): (s: Step)
    ensures Keeps(c, s)
    decreases BlockSize(block), 3
  {
    EvalWithPathPart(|c.pathInfo|, block, ctx, c, caps, Success([Str(c.pathInfo)]))
  }

  /** complete: when PATH_INFO is empty or the request was an index
      request, consumes what is left. */
  function EvalComplete(block: seq<Route>, ctx: Context, c: Cursor, caps: seq<Capture>): (s: Step)
    ensures Keeps(c, s)
    decreases BlockSize(block), 3
  {
    if c.pathInfo == "" || ctx.isIndex then
      EvalWithPathPart(|c.pathInfo|, block, ctx, c, caps, Success([]))
    else Step(Continue, c)
  }

  /** Every expected key is a parameter with that value. */
  predicate ParamsAgree(expected: map<string, string>, params: map<string, string>) {
    forall k :: k in expected ==> k in params && params[k] == expected[k]
  }

  /** query(Hash): no key whose request value differs. */
  function EvalQueryParams(expected: map<string, string>, block: seq<Route>,
                           ctx: Context, c: Cursor, caps: seq<Capture>): (s: Step)
    ensures Keeps(c, s)
    decreases BlockSize(block), 3
  {
    if ParamsAgree(expected, ctx.params) then Eval(block, ctx, c, caps) else Step(Continue, c)
  }

  /** The parameter values of `names`, in order; None at the first absent one. */
  function Lookup(names: seq<string>, params: map<string, string>): (r: Option<seq<Capture>>)
    ensures r.Some? ==> |r.value| == |names|
    ensures (forall i :: 0 <= i < |names| ==> names[i] in params) ==> r.Some?
  {
    if |names| == 0 then Some([])
    else if names[0] !in params then None
    else
      match Lookup(names[1..], params)
      case None => None
      case Some(vs) => Some([Str(params[names[0]])] + vs)
  }

  /** query(Array): yields the named values, or returns at the first
      missing one. */
  function EvalQueryNames(names: seq<string>, block: seq<Route>,
                          ctx: Context, c: Cursor, caps: seq<Capture>): (s: Step)
    ensures Keeps(c, s)
    decreases BlockSize(block), 3
  {
    match Lookup(names, ctx.params)
    case None => Step(Continue, c)
    case Some(vs) => Eval(block, ctx, c, caps + vs)
  }

  function EvalQueryString(qs: string, block: seq<Route>, ctx: Context, c: Cursor, caps: seq<Capture>): (s: Step)
    ensures Keeps(c, s)
    decreases BlockSize(block), 3
  {
    if qs == ctx.queryString then Eval(block, ctx, c, caps) else Step(Continue, c)
  }

  /** request_method(m, path): on method m, whole_path(path) when a path
      is given, complete otherwise. */
  function EvalRequestMethod(m: string, path: Option<string>, block: seq<Route>,
                             ctx: Context, c: Cursor, caps: seq<Capture>): (s: Step)
    ensures Keeps(c, s)
    decreases 3 + BlockSize(block), 3
  {
    if ctx.requestMethod != m then Step(Continue, c)
    else
      match path
      case Some(p) => EvalWholePath(p, block, ctx, c, caps)
      case None => EvalComplete(block, ctx, c, caps)
  }

  /** The block's own code: a halt throws and leaves the cursor where it is. */
  function EvalHandler(strict: bool, action: seq<Capture> -> Option<seq<ResponseValue>>,
                       c: Cursor, caps: seq<Capture>): (s: Step)
    ensures Keeps(c, s)
  {
    match action(caps)
    case None => Step(Continue, c)
    case Some(args) => Step(if strict then Halt(c.pathInfo, args) else HaltBang(args), c)
  }
}

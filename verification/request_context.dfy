/** request_context.rb `call`, as a function of the route block and the
    request: the values derived once from PATH_INFO, the catch of
    `:halt`, and the 404 fallback. */
module RequestContext {
  import opened Wrappers
  import opened Patterns
  import opened Responding
  import opened Routing

  /** The parts of the Rack environment that routing reads. */
  datatype Request = Request(
    requestMethod: string,
    scriptName: string,
    pathInfo: string,
    queryString: string,
    params: map<string, string>)

  /** What `call` produces: a response, or an exception that escapes it. */
  datatype Answer = Responded(response: Response) | Failed(failure: Failure)

  /** The routing context of a request, fixed before the block runs. */
  function ContextFor(req: Request): (ctx: Context)
    ensures ctx.requestMethod == req.requestMethod && ctx.queryString == req.queryString
    ensures ctx.params == req.params
    ensures ctx.isIndex <==> req.pathInfo == "" || req.pathInfo == "/"
  {
    Context(req.requestMethod, req.queryString, req.params, DetectExtension(req.pathInfo), IsIndexPath(req.pathInfo))
  }

  /** The outcome of the whole block as the answer of `call`. */
  function AnswerFor(o: Outcome): (a: Answer)
    ensures o.Continue? ==> a == Responded(NotFound)
    ensures o.Halted? ==> a == Responded(o.response)
    ensures o.Raised? ==> a == Failed(o.failure)
  {
    match o
    case Continue => Responded(NotFound)
    case Halted(r) => Responded(r)
    case Raised(f) => Failed(f)
  }

  /** call(env). */
  function Serve(root: seq<Route>, req: Request): (a: Answer)
    ensures var o := Eval(root, ContextFor(req), Cursor(req.scriptName, req.pathInfo), []).outcome;
            (a.Failed? ==> o.Raised?) && (a.Responded? && a.response != NotFound ==> o == Halted(a.response))
  {
    AnswerFor(Eval(root, ContextFor(req), Cursor(req.scriptName, req.pathInfo), []).outcome)
  }

  /** The detected extension is e exactly when the path is some text, a
      dot, and e, with e non-empty and free of dots and slashes. */
  lemma {:induction false} DetectedExtensionSpec(req: Request, e: string)
    ensures ContextFor(req).detectedExtension == Some(e) <==>
              exists a :: req.pathInfo == a + "." + e && IsExtensionText(e)
  {
    DetectExtensionSpec(req.pathInfo, e);
  }

  /** A block that returns normally answers 404 "Not found". */
  lemma {:induction false} NotFoundWithoutHalt(root: seq<Route>, req: Request)
    requires Eval(root, ContextFor(req), Cursor(req.scriptName, req.pathInfo), []).outcome.Continue?
    ensures Serve(root, req) == Responded(Built(RInt(404), RStr("Not found")))
  {
  }

  /** The first declaration that halts gives the answer; nothing after it
      runs. */
  lemma {:induction false} FirstHaltAnswers(r: Route, rest: seq<Route>, req: Request)
    requires EvalRoute(r, ContextFor(req), Cursor(req.scriptName, req.pathInfo), []).outcome.Halted?
    ensures Serve([r] + rest, req) ==
              Responded(EvalRoute(r, ContextFor(req), Cursor(req.scriptName, req.pathInfo), []).outcome.response)
  {
    assert ([r] + rest)[0] == r;
  }
}

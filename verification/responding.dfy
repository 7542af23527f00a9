/** The response side of a request: the values a handler may pass to
    `halt`, the status-label table, `interpret_response`, and `halt` /
    `halt!` with their non-local exit made into an `Outcome` value. */
module Responding {
  import opened Wrappers
  import opened Text

  /** A Ruby value handed to `halt`. `RObject` stands for any object of
      another class (a Hash, nil, ...), known here by its `to_s` text. */
  datatype ResponseValue =
    | RInt(n: int)
    | RStr(s: string)
    | RSym(name: string)
    | RArray(items: seq<ResponseValue>)
    | RObject(text: string)

  /** A finished Rack response. `Built(status, body)` is
      `Response.new(body, status).finish`, kept abstract; `Passed` is a
      three-element array handed back unchanged. */
  datatype Response =
    | Built(status: ResponseValue, body: ResponseValue)
    | Passed(triple: seq<ResponseValue>)

  /** The exceptions that end a request (they are not caught by `call`). */
  datatype Failure =
    | UnconsumedPath(rest: string)        // halt with PATH_INFO left over
    | CannotRender(value: ResponseValue)  // interpret_response on a bad array
    | UnexpectedVariableType(name: string)
    | MissingPartArgument                 // exact_path('/x') calls part()
    | InvalidInteger(text: string)        // Integer() on a variable capture

  /** What evaluating a route declaration leads to: it returns normally,
      it throws `:halt` with a response, or it raises. */
  datatype Outcome = Continue | Halted(response: Response) | Raised(failure: Failure)

  /** HTTP_CODES. `payment_required` maps to 403, not RFC 7231's 402. */
  const HttpCodes: map<string, int> := map[
    "ok" := 200,
    "created" := 201,
    "accepted" := 202,
    "no_content" := 204,
    "bad_request" := 400,
    "unauthorized" := 401,
    "payment_required" := 403,
    "not_found" := 404,
    "method_not_found" := 405,
    "not_acceptable" := 406,
    "gone" := 410,
    "error" := 500,
    "not_implemented" := 501]

  lemma {:induction false} StatusTable()
    ensures HttpCodes.Keys == {"ok", "created", "accepted", "no_content", "bad_request",
                               "unauthorized", "payment_required", "not_found",
                               "method_not_found", "not_acceptable", "gone", "error",
                               "not_implemented"}
    ensures HttpCodes["ok"] == 200 && HttpCodes["payment_required"] == 403
    ensures HttpCodes["method_not_found"] == 405 && HttpCodes["not_implemented"] == 501
    ensures forall l :: l in HttpCodes ==> 200 <= HttpCodes[l] <= 501
  {
  }

  /** The body text that an integer response gets. */
  function StatusCodeBody(n: int): string {
    "Status code " + IntToString(n)
  }

  /** `HTTP_CODES[a] || a`: the status a two-element array asks for. */
  function StatusFor(a: ResponseValue): (s: ResponseValue)
    ensures a.RSym? && a.name in HttpCodes ==> s == RInt(HttpCodes[a.name])
    ensures !(a.RSym? && a.name in HttpCodes) ==> s == a
  {
    if a.RSym? && a.name in HttpCodes then RInt(HttpCodes[a.name]) else a
  }

  function Rank(v: ResponseValue): nat {
    match v
    case RSym(_) => 1
    case RObject(_) => 1
    case _ => 0
  }

  /** interpret_response. */
  function Interpret(v: ResponseValue): (r: Result<Response, Failure>)
    ensures !v.RArray? ==> r.Success? && r.value.Built?
    ensures r.Failure? ==> r.error == CannotRender(v)
    decreases Rank(v)
  {
    match v
    case RArray(items) =>
      if |items| == 3 then Success(Passed(items))
      else if |items| == 2 then Success(Built(StatusFor(items[0]), items[1]))
      else Failure(CannotRender(v))
    case RStr(s) => Success(Built(RInt(200), v))
    case RInt(n) => Success(Built(v, RStr(StatusCodeBody(n))))
    case RSym(name) =>
      Interpret(if name in HttpCodes then RInt(HttpCodes[name]) else RStr(name))
    case RObject(text) => Interpret(RStr(text))
  }

  /** An integer n is status n with body "Status code n". */
  lemma {:induction false} IntegerResponse(n: int)
    ensures Interpret(RInt(n)) == Success(Built(RInt(n), RStr("Status code " + IntToString(n))))
  {
  }

  /** A string is a 200 response with that body. */
  lemma {:induction false} StringResponse(s: string)
    ensures Interpret(RStr(s)) == Success(Built(RInt(200), RStr(s)))
  {
  }

  /** A label from the table behaves exactly like its code; any other label
      is a 200 response whose body is the label's name. */
  lemma {:induction false} SymbolResponse(l: string)
    ensures l in HttpCodes ==> Interpret(RSym(l)) == Interpret(RInt(HttpCodes[l]))
    ensures l !in HttpCodes ==> Interpret(RSym(l)) == Success(Built(RInt(200), RStr(l)))
  {
  }

  /** A pair (a, b): status is the code of label a, or a itself; body is b. */
  lemma {:induction false} PairResponse(a: ResponseValue, b: ResponseValue)
    ensures a.RSym? && a.name in HttpCodes ==>
              Interpret(RArray([a, b])) == Success(Built(RInt(HttpCodes[a.name]), b))
    ensures !(a.RSym? && a.name in HttpCodes) ==>
              Interpret(RArray([a, b])) == Success(Built(a, b))
  {
  }

  /** Exactly the arrays whose size is neither 2 nor 3 cannot be rendered;
      a three-element array is returned unchanged. */
  lemma {:induction false} RenderableIffShape(v: ResponseValue)
    ensures Interpret(v).Failure? <==> v.RArray? && |v.items| != 2 && |v.items| != 3
    ensures v.RArray? && |v.items| == 3 ==> Interpret(v) == Success(Passed(v.items))
  {
    match v
    case RSym(name) =>
      if name in HttpCodes {
        assert Interpret(v) == Interpret(RInt(HttpCodes[name]));
      } else {
        assert Interpret(v) == Interpret(RStr(name));
      }
    case RObject(text) =>
      assert Interpret(v) == Interpret(RStr(text));
    case _ =>
  }

  /** `halt!(*response)`: one argument is interpreted on its own, any other
      number of arguments as an array. Never checks the path. */
  function HaltBang(args: seq<ResponseValue>): (o: Outcome)
    ensures !o.Continue?
    ensures |args| == 1 ==> o == (match Interpret(args[0])
                                  case Success(r) => Halted(r)
                                  case Failure(f) => Raised(f))
    ensures |args| == 0 || |args| >= 4 ==> o == Raised(CannotRender(RArray(args)))
    ensures |args| == 2 ==> o == Halted(Built(StatusFor(args[0]), args[1]))
    ensures |args| == 3 ==> o == Halted(Passed(args))
  {
    match Interpret(if |args| == 1 then args[0] else RArray(args))
    case Success(r) => Halted(r)
    case Failure(f) => Raised(f)
  }

  /** `halt(*response)`: raises while PATH_INFO is not empty, otherwise
      behaves as `halt!`. */
  function Halt(pathInfo: string, args: seq<ResponseValue>): (o: Outcome)
    ensures !o.Continue?
    ensures pathInfo != "" ==> o == Raised(UnconsumedPath(pathInfo))
    ensures pathInfo == "" ==> o == HaltBang(args)
  {
    if pathInfo != "" then Raised(UnconsumedPath(pathInfo)) else HaltBang(args)
  }

  /** The response `call` falls back to when nothing halts. */
  const NotFound: Response := Built(RInt(404), RStr("Not found"))
}

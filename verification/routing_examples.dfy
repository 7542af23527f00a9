/** Whole requests through `call`, taken from the routing tests. Each
    proof follows the request through the matchers one step at a time. */
module RoutingExamples {
  import opened Wrappers
  import opened Text
  import opened Patterns
  import opened Responding
  import opened Routing
  import opened RoutingProperties
  import opened RequestContext

  function GetRequest(path: string): Request {
    Request("GET", "", path, "", map[])
  }

  /** `[200, {'Content-Type' => 'text/plain'}, [body]]`, passed through
      unchanged by interpret_response. */
  function TextTriple(body: string): seq<ResponseValue> {
    [RInt(200), RObject("{\"Content-Type\"=>\"text/plain\"}"), RArray([RStr(body)])]
  }

  function Always(args: seq<ResponseValue>): seq<Capture> -> Option<seq<ResponseValue>> {
    _ => Some(args)
  }

  /** The text the innermost matcher yielded. */
  function LastText(caps: seq<Capture>): string {
    if |caps| > 0 && caps[|caps| - 1].Str? then caps[|caps| - 1].s else ""
  }

  /** A block that halts with the yielded text after `prefix`. */
  function Echo(prefix: string): seq<Capture> -> Option<seq<ResponseValue>> {
    (caps: seq<Capture>) => Some([RStr(prefix + LastText(caps))])
  }

  lemma {:induction false} NoDotNoExtension(s: string, i: nat)
    requires forall k :: 0 <= k < |s| ==> s[k] != '.'
    ensures DetectFrom(s, i) == None
    decreases |s| - i
  {
    if i < |s| {
      NoDotNoExtension(s, i + 1);
    }
  }

  // ----- trailing slashes -----

  function TestHandler(): Route {
    Handler(true, Always([RArray(TextTriple("test"))]))
  }

  /** The test handler, reached with nothing left of the path. */
  lemma {:induction false} TestHandlerHalts(ctx: Context, sn: string)
    ensures EvalComplete([TestHandler()], ctx, Cursor(sn, ""), []) ==
              Step(Halted(Passed(TextTriple("test"))), Cursor(sn, ""))
  {
    var inner := Cursor(sn, "");
    EvalSingle(TestHandler(), ctx, inner, []);
    CompleteSpec([TestHandler()], ctx, inner, []);
    assert sn + "" == sn;
  }

  function TestBlock(): seq<Route> {
    [Get(None, [TestHandler()])]
  }

  /** get { halt [200, type, ['test']] }, reached by a GET with nothing
      left of the path. */
  lemma {:induction false} TestBlockHalts(ctx: Context, sn: string)
    requires ctx.requestMethod == "GET"
    ensures Eval(TestBlock(), ctx, Cursor(sn, ""), []) ==
              Step(Halted(Passed(TextTriple("test"))), Cursor(sn, ""))
  {
    TestHandlerHalts(ctx, sn);
    RequestMethodSpec("GET", None, [TestHandler()], ctx, Cursor(sn, ""), []);
    EvalSingle(Get(None, [TestHandler()]), ctx, Cursor(sn, ""), []);
  }

  /** path(p) on exactly "/p/" consumes the whole path. */
  lemma {:induction false} PathEntersWhole(p: string, whole: string, block: seq<Route>, ctx: Context)
    requires p != "" && p[0] != '/' && whole == "/" + p + "/"
    ensures EvalPath(p, block, ctx, Cursor("", whole), []) ==
              Enter(block, ctx, Cursor(whole, ""), [], Cursor("", whole))
  {
    assert StripLeadingSlash(p) == p;
    PathSpec(p, block, ctx, Cursor("", whole), []);
    assert "" + whole == whole;
  }

  lemma {:induction false} TestRouteOnSlash(ctx: Context)
    requires ctx.requestMethod == "GET"
    ensures EvalPath("test", TestBlock(), ctx, Cursor("", "/test/"), []) ==
              Step(Halted(Passed(TextTriple("test"))), Cursor("/test/", ""))
  {
    TestBlockHalts(ctx, "/test/");
    PathEntersWhole("test", "/test/", TestBlock(), ctx);
  }

  lemma {:induction false} TestRouteOnBare(ctx: Context)
    requires ctx.requestMethod == "GET"
    ensures EvalPath("test", TestBlock(), ctx, Cursor("", "/test"), []) ==
              Step(Halted(Passed(TextTriple("test"))), Cursor("/test", ""))
  {
    TestBlockHalts(ctx, "/test");
    PathEntersBeforeMore("test", "/test", "", "/test", TestBlock(), ctx);
  }

  lemma {:induction false} TestRouteOn(path: string)
    requires path == "/test" || path == "/test/"
    ensures var ctx := ContextFor(GetRequest(path));
            EvalPath("test", TestBlock(), ctx, Cursor("", path), []) ==
              Step(Halted(Passed(TextTriple("test"))), Cursor(path, ""))
  {
    if path == "/test" {
      TestRouteOnBare(ContextFor(GetRequest(path)));
    } else {
      TestRouteOnSlash(ContextFor(GetRequest(path)));
    }
  }

  /** path('test') answers both /test and /test/. */
  lemma {:induction false} TrailingSlashIgnored(path: string)
    requires path == "/test" || path == "/test/"
    ensures Serve([Path("test", TestBlock())], GetRequest(path)) ==
              Responded(Passed(TextTriple("test")))
  {
    var ctx := ContextFor(GetRequest(path));
    TestRouteOn(path);
    EvalSingle(Path("test", TestBlock()), ctx, Cursor("", path), []);
  }

  /** With a slash left over, get's implicit `complete` does not match. */
  lemma {:induction false} TestBlockPasses(ctx: Context, sn: string)
    requires !ctx.isIndex
    ensures Eval(TestBlock(), ctx, Cursor(sn, "/"), []).outcome == Continue
  {
    var c := Cursor(sn, "/");
    CompleteSpec([TestHandler()], ctx, c, []);
    RequestMethodSpec("GET", None, [TestHandler()], ctx, c, []);
    EvalSingle(Get(None, [TestHandler()]), ctx, c, []);
  }

  lemma {:induction false} ExactTestPasses(ctx: Context)
    requires !ctx.isIndex
    ensures EvalExactPath("test", TestBlock(), ctx, Cursor("", "/test/"), []).outcome == Continue
  {
    var c := Cursor("", "/test/");
    TestBlockPasses(ctx, "/test");
    ExactPathSpec("test", TestBlock(), ctx, c, []);
    assert "/" + "test" == "/test";
    assert "/test" <= "/test/";
    assert Moved(c, "/test") == Cursor("/test", "/");
  }

  /** exact_path('test') leaves /test/ to the 404. */
  lemma {:induction false} TrailingSlashKeptByExactPath()
    ensures Serve([ExactPath("test", TestBlock())], GetRequest("/test/")) == Responded(NotFound)
  {
    var ctx := ContextFor(GetRequest("/test/"));
    var c := Cursor("", "/test/");
    assert !ctx.isIndex;
    ExactTestPasses(ctx);
    EvalSingle(ExactPath("test", TestBlock()), ctx, c, []);
  }


  // ----- typed variables -----

  /** `halt [200, type, ["#{a + b}"]]` for two integer captures. */
  function Sum(caps: seq<Capture>): Option<seq<ResponseValue>> {
    if |caps| == 2 && caps[0].Num? && caps[1].Num? then
      Some([RArray(TextTriple(IntToString(caps[0].n + caps[1].n)))])
    else None
  }

  function AddRoute(): Route {
    Path("add", [Variable(IntegerType, 2, [Handler(true, Sum)])])
  }

  lemma {:induction false} SevenText()
    ensures IntToString(7) == "7"
  {
  }

  /** Integer() of a one-digit text other than zero-padded is its value. */
  lemma {:induction false} OneDigit(s: string, d: nat)
    requires |s| == 1 && IsDigit(s[0]) && DigitValue(s[0]) == d
    ensures RubyInteger(s) == Success(d)
  {
    assert AllDigits(s);
    assert s[..|s| - 1] == [];
    assert ValueIn(10, []) == 0;
    assert ValueIn(10, s) == d;
  }

  lemma {:induction false} ConvertCons(t: string, v: int, ts: seq<string>, vs: seq<Capture>)
    requires RubyInteger(t) == Success(v) && Convert(ts, true) == Success(vs)
    ensures Convert([t] + ts, true) == Success([Num(v)] + vs)
  {
    assert ([t] + ts)[0] == t;
    assert ([t] + ts)[1..] == ts;
  }

  lemma {:induction false} ThreeAndFour()
    ensures Convert(["3", "4"], true) == Success([Num(3), Num(4)])
  {
    OneDigit("4", 4);
    OneDigit("3", 3);
    assert Convert([], true) == Success([]);
    ConvertCons("4", 4, [], []);
    assert ["4"] + [] == ["4"];
    assert [Num(4)] + [] == [Num(4)];
    ConvertCons("3", 3, ["4"], [Num(4)]);
    assert ["3"] + ["4"] == ["3", "4"];
    assert [Num(3)] + [Num(4)] == [Num(3), Num(4)];
  }

  lemma {:induction false} ThreeAndFourSplit()
    ensures IsSplit(Digit, "/3/4", 2, ["3", "4"], "")
  {
    assert SlashJoin(["4"]) == "/4" by {
      assert ["4"][1..] == [];
    }
    assert ["3", "4"][1..] == ["4"];
    assert SlashJoin(["3", "4"]) == "/3/4";
  }

  /** variable(:type => Integer) captures 3 and 4 from /3/4 as integers. */
  lemma {:induction false} IntegerVariableStep(ctx: Context)
    ensures EvalVariable("/", IntegerType, 2, [Handler(true, Sum)], ctx, Cursor("/add", "/3/4"), []) ==
              Step(Halted(Passed(TextTriple("7"))), Cursor("/add/3/4", ""))
  {
    var c := Cursor("/add", "/3/4");
    var inner := Cursor("/add/3/4", "");
    ThreeAndFour();
    ThreeAndFourSplit();
    var done := Step(Halted(Passed(TextTriple("7"))), inner);
    SevenText();
    assert EvalHandler(true, Sum, inner, [Num(3), Num(4)]) == done;
    EvalSingle(Handler(true, Sum), ctx, inner, [Num(3), Num(4)]);
    assert SlashJoin(["3", "4"]) == "/3/4" by {
      assert "/3/4" == SlashJoin(["3", "4"]) + "";
    }
    assert Moved(c, "/3/4") == inner;
    assert [] + [Num(3), Num(4)] == [Num(3), Num(4)];
    assert Enter([Handler(true, Sum)], ctx, inner, [] + [Num(3), Num(4)], c) == done;
    VariableIntegerSpec(2, [Handler(true, Sum)], ctx, c, []);
  }

  lemma {:induction false} AddRouteStep(ctx: Context)
    ensures EvalRoute(AddRoute(), ctx, Cursor("", "/add/3/4"), []) ==
              Step(Halted(Passed(TextTriple("7"))), Cursor("/add/3/4", ""))
  {
    var c := Cursor("", "/add/3/4");
    var block := [Variable(IntegerType, 2, [Handler(true, Sum)])];
    IntegerVariableStep(ctx);
    EvalSingle(block[0], ctx, Cursor("/add", "/3/4"), []);
    assert StripLeadingSlash("add") == "add";
    PathSpec("add", block, ctx, c, []);
    assert "/" + "add" == "/add";
    assert "/add" <= "/add/3/4";
    assert |"/add/3/4"| != |"/add/"|;
    assert Moved(c, "/add") == Cursor("/add", "/3/4");
    assert Eval(block, ctx, Cursor("/add", "/3/4"), []).outcome.Halted?;
  }

  /** GET /add/3/4 answers 7: path('add') { variable(:type => Integer) { |a, b| ... } }. */
  lemma {:induction false} IntegerVariables()
    ensures Serve([AddRoute()], GetRequest("/add/3/4")) == Responded(Passed(TextTriple("7")))
  {
    var ctx := ContextFor(GetRequest("/add/3/4"));
    AddRouteStep(ctx);
    EvalSingle(AddRoute(), ctx, Cursor("", "/add/3/4"), []);
  }

  // ----- extensions -----

  lemma {:induction false} HtmlDetected(path: string, a: string)
    requires path == a + ".html"
    ensures ContextFor(GetRequest(path)).detectedExtension == Some("html")
  {
    assert path == a + "." + "html";
    assert IsExtensionText("html");
    DetectedExtensionSpec(GetRequest(path), "html");
  }

  /** var { extension('html') { halt "html #{id}" } ... no_extension { halt "none #{id}" } } */
  function VarBlock(): seq<Route> {
    [Extension("html", [Handler(true, Echo("html "))]),
     Extension("xml", [Handler(true, Echo("xml "))]),
     NoExtension([Handler(true, Echo("none "))])]
  }

  function VarThenExtension(): Route {
    Variable(Untyped, 1, VarBlock())
  }

  /** Inside the variable, the html extension is detected but no ".html" is
      left to consume, so the block runs where it is. */
  lemma {:induction false} HtmlWithNothingLeft(ctx: Context, sn: string, id: string, answer: string)
    requires ctx.detectedExtension == Some("html") && answer == "html " + id
    ensures Eval(VarBlock(), ctx, Cursor(sn, ""), [Str(id)]) ==
              Step(Halted(Built(RInt(200), RStr(answer))), Cursor(sn, ""))
  {
    var inner := Cursor(sn, "");
    var h := Handler(true, Echo("html "));
    assert PartMatch(".html", "") == None;
    assert EvalHandler(true, Echo("html "), inner, [Str(id)]) ==
             Step(Halted(Built(RInt(200), RStr(answer))), inner);
    EvalSingle(h, ctx, inner, [Str(id)]);
    assert EvalRoute(Extension("html", [h]), ctx, inner, [Str(id)]) ==
             Step(Halted(Built(RInt(200), RStr(answer))), inner);
    HaltEndsBlock(Extension("html", [h]), VarBlock()[1..], ctx, inner, [Str(id)]);
    assert [Extension("html", [h])] + VarBlock()[1..] == VarBlock();
  }

  /** A one-segment variable takes the whole of a path that is one segment
      and runs its block on nothing left. */
  lemma {:induction false} VariableEntersOne(seg: string, whole: string, block: seq<Route>, ctx: Context)
    requires IsRun(NonSlash, seg) && whole == "/" + seg
    ensures EvalVariable("/", Untyped, 1, block, ctx, Cursor("", whole), []) ==
              Enter(block, ctx, Cursor(whole, ""), [Str(seg)], Cursor("", whole))
  {
    var c := Cursor("", whole);
    assert [seg][1..] == [];
    assert SlashJoin([seg]) == whole;
    assert IsSplit(NonSlash, whole, 1, [seg], "");
    VariableSpec(1, block, ctx, c, []);
    assert Moved(c, whole) == Cursor(whole, "");
    assert [] + Texts([seg]) == [Str(seg)];
  }

  lemma {:induction false} VarHtmlStep(ctx: Context)
    requires ctx.detectedExtension == Some("html")
    ensures EvalRoute(VarThenExtension(), ctx, Cursor("", "/var.html"), []) ==
              Step(Halted(Built(RInt(200), RStr("html var.html"))), Cursor("/var.html", ""))
  {
    var c, inner := Cursor("", "/var.html"), Cursor("/var.html", "");
    var done := Step(Halted(Built(RInt(200), RStr("html var.html"))), inner);
    HtmlWithNothingLeft(ctx, "/var.html", "var.html", "html var.html");
    VarIsRun();
    VariableEntersOne("var.html", "/var.html", VarBlock(), ctx);
    assert Enter(VarBlock(), ctx, inner, [Str("var.html")], c) == done;
    assert EvalRoute(Variable(Untyped, 1, VarBlock()), ctx, c, []) ==
             EvalVariable("/", Untyped, 1, VarBlock(), ctx, c, []);
  }

  lemma {:induction false} VarIsRun()
    ensures IsRun(NonSlash, "var.html")
  {
  }

  /** GET /var.html: the variable takes all of "var.html" (its class is
      every character but the slash), and extension('html') then runs with
      nothing left to consume. */
  lemma {:induction false} VariableTakesTheExtension()
    ensures Serve([VarThenExtension()], GetRequest("/var.html")) ==
              Responded(Built(RInt(200), RStr("html var.html")))
  {
    var ctx := ContextFor(GetRequest("/var.html"));
    HtmlDetected("/var.html", "/var");
    VarHtmlStep(ctx);
    EvalSingle(VarThenExtension(), ctx, Cursor("", "/var.html"), []);
  }

  function TextHandler(body: string): Route {
    Handler(true, Always([RArray(TextTriple(body))]))
  }

  /** extension('html') / extension('json') / no_extension inside path('/test'). */
  function TestExtensions(): seq<Route> {
    [Extension("html", [TextHandler("test html")]),
     Extension("json", [TextHandler("test json")]),
     NoExtension([TextHandler("test nope")])]
  }

  function ExtensionRoutes(): seq<Route> {
    [Path("/test", TestExtensions()), Extension("html", [TextHandler("test html")])]
  }

  /** path('/test') leaves ".ext" of "/test.ext" to its block. */
  lemma {:induction false} TestPathEnters(ext: string, block: seq<Route>, ctx: Context)
    requires ext != "" && ext[0] == '.'
    ensures EvalPath("/test", block, ctx, Cursor("", "/test" + ext), []) ==
              Enter(block, ctx, Cursor("/test", ext), [], Cursor("", "/test" + ext))
  {
    var c := Cursor("", "/test" + ext);
    assert StripLeadingSlash("/test") == "test";
    PathSpec("/test", block, ctx, c, []);
    assert "/" + "test" == "/test";
    assert "/test" <= c.pathInfo;
    assert c.pathInfo != "/test/" by {
      assert c.pathInfo[5] == '.';
    }
    assert Moved(c, "/test") == Cursor("/test", ext) by {
      assert c.pathInfo[5..] == ext;
    }
  }

  lemma {:induction false} HtmlInsideTest(ctx: Context, sn: string, whole: string)
    requires ctx.detectedExtension == Some("html") && whole == sn + ".html"
    ensures Eval(TestExtensions(), ctx, Cursor(sn, ".html"), []) ==
              Step(Halted(Passed(TextTriple("test html"))), Cursor(whole, ""))
  {
    var c := Cursor(sn, ".html");
    var inner := Cursor(whole, "");
    var h := TextHandler("test html");
    var done := Step(Halted(Passed(TextTriple("test html"))), inner);
    assert PartMatch(".html", ".html") == Some(".html");
    WithPathPartEnters(5, [h], ctx, c, [], []);
    assert Moved(c, ".html"[..5]) == inner;
    var none: seq<Capture> := [];
    assert none + none == none;
    EvalSingle(h, ctx, inner, []);
    assert Eval([h], ctx, inner, []) == done;
    assert EvalRoute(Extension("html", [h]), ctx, c, []) == done;
    HaltEndsBlock(Extension("html", [h]), TestExtensions()[1..], ctx, c, []);
    assert [Extension("html", [h])] + TestExtensions()[1..] == TestExtensions();
  }

  lemma {:induction false} XmlInsideTest(ctx: Context)
    requires ctx.detectedExtension == Some("xml")
    ensures Eval(TestExtensions(), ctx, Cursor("/test", ".xml"), []).outcome == Continue
  {
    var c := Cursor("/test", ".xml");
    var b := TestExtensions();
    ExtensionSpec("html", b[0].block, ctx, c, []);
    ExtensionSpec("json", b[1].block, ctx, c, []);
    ExtensionSpec("xml", b[2].block, ctx, c, []);
    EvalSkip(b[0], b[1..], ctx, c, []);
    assert [b[0]] + b[1..] == b;
    EvalSkip(b[1], b[2..], ctx, c, []);
    assert [b[1]] + b[2..] == b[1..];
    EvalSingle(b[2], ctx, c, []);
    assert b[2..] == [b[2]];
  }

  lemma {:induction false} TestHtmlStep(ctx: Context)
    requires ctx.detectedExtension == Some("html")
    ensures Eval(ExtensionRoutes(), ctx, Cursor("", "/test.html"), []) ==
              Step(Halted(Passed(TextTriple("test html"))), Cursor("/test.html", ""))
  {
    var c := Cursor("", "/test.html");
    HtmlInsideTest(ctx, "/test", "/test.html");
    TestPathEnters(".html", TestExtensions(), ctx);
    assert "/test" + ".html" == "/test.html";
    HaltEndsBlock(ExtensionRoutes()[0], ExtensionRoutes()[1..], ctx, c, []);
    assert [ExtensionRoutes()[0]] + ExtensionRoutes()[1..] == ExtensionRoutes();
  }

  lemma {:induction false} TestXmlStep(ctx: Context)
    requires ctx.detectedExtension == Some("xml")
    ensures Eval(ExtensionRoutes(), ctx, Cursor("", "/test.xml"), []).outcome == Continue
  {
    var c := Cursor("", "/test.xml");
    var rs := ExtensionRoutes();
    XmlInsideTest(ctx);
    TestPathEnters(".xml", TestExtensions(), ctx);
    assert "/test" + ".xml" == "/test.xml";
    EvalSkip(rs[0], rs[1..], ctx, c, []);
    assert [rs[0]] + rs[1..] == rs;
    ExtensionSpec("html", rs[1].block, ctx, c, []);
    EvalSingle(rs[1], ctx, c, []);
    assert rs[1..] == [rs[1]];
  }

  /** GET /test.html answers 'test html'. */
  lemma {:induction false} HtmlExtension()
    ensures Serve(ExtensionRoutes(), GetRequest("/test.html")) == Responded(Passed(TextTriple("test html")))
  {
    HtmlDetected("/test.html", "/test");
    TestHtmlStep(ContextFor(GetRequest("/test.html")));
  }

  /** GET /test.xml falls through every extension matcher to the 404. */
  lemma {:induction false} UnknownExtensionNotFound()
    ensures Serve(ExtensionRoutes(), GetRequest("/test.xml")) == Responded(NotFound)
  {
    var req := GetRequest("/test.xml");
    assert req.pathInfo == "/test" + "." + "xml";
    assert IsExtensionText("xml");
    DetectedExtensionSpec(req, "xml");
    TestXmlStep(ContextFor(req));
  }

  // ----- remainder -----

  /** `halt [200, type, ["#{prefix}#{rest}"]]`. */
  function EchoTriple(prefix: string): seq<Capture> -> Option<seq<ResponseValue>> {
    (caps: seq<Capture>) => Some([RArray(TextTriple(prefix + LastText(caps)))])
  }

  function InnerRemainder(): Route {
    Remainder([Post(None, [Handler(true, EchoTriple("test-"))])])
  }

  function TestRemainderBlock(): seq<Route> {
    [Get(None, [TextHandler("test")]), InnerRemainder()]
  }

  function OuterRemainderRoute(): Route {
    Remainder([Handler(true, EchoTriple(""))])
  }

  function RemainderRoutes(): seq<Route> {
    [Path("test", TestRemainderBlock()), OuterRemainderRoute()]
  }

  lemma {:induction false} PostAfterRemainder(ctx: Context, sn: string, pi: string, whole: string, answer: string)
    requires ctx.requestMethod == "POST" && whole == sn + pi && answer == "test-" + pi
    ensures EvalRoute(InnerRemainder(), ctx, Cursor(sn, pi), []) ==
              Step(Halted(Passed(TextTriple(answer))), Cursor(whole, ""))
  {
    var c := Cursor(sn, pi);
    var inner := Cursor(whole, "");
    var h := Handler(true, EchoTriple("test-"));
    var done := Step(Halted(Passed(TextTriple(answer))), inner);
    assert EvalHandler(true, EchoTriple("test-"), inner, [Str(pi)]) == done;
    EvalSingle(h, ctx, inner, [Str(pi)]);
    CompleteSpec([h], ctx, inner, [Str(pi)]);
    assert inner.scriptName + "" == inner.scriptName;
    RequestMethodSpec("POST", None, [h], ctx, inner, [Str(pi)]);
    EvalSingle(Post(None, [h]), ctx, inner, [Str(pi)]);
    assert [] + [Str(pi)] == [Str(pi)];
    RemainderSpec([Post(None, [h])], ctx, c, []);
  }

  lemma {:induction false} PostTestBlock(ctx: Context, sn: string, pi: string, whole: string, answer: string)
    requires ctx.requestMethod == "POST" && whole == sn + pi && answer == "test-" + pi
    ensures Eval(TestRemainderBlock(), ctx, Cursor(sn, pi), []) ==
              Step(Halted(Passed(TextTriple(answer))), Cursor(whole, ""))
  {
    var c2 := Cursor(sn, pi);
    var b := TestRemainderBlock();
    PostAfterRemainder(ctx, sn, pi, whole, answer);
    RequestMethodSpec("GET", None, [TextHandler("test")], ctx, c2, []);
    EvalSkip(b[0], b[1..], ctx, c2, []);
    assert [b[0]] + b[1..] == b;
    EvalSingle(b[1], ctx, c2, []);
    assert b[1..] == [b[1]];
  }

  /** path(p) with more than a trailing slash after "/p" consumes "/p". */
  lemma {:induction false} PathEntersBeforeMore(p: string, head: string, more: string, whole: string, block: seq<Route>, ctx: Context)
    requires p != "" && p[0] != '/' && more != "/"
    requires head == "/" + p && whole == head + more
    ensures EvalPath(p, block, ctx, Cursor("", whole), []) ==
              Enter(block, ctx, Cursor(head, more), [], Cursor("", whole))
  {
    var c := Cursor("", whole);
    assert StripLeadingSlash(p) == p;
    PathSpec(p, block, ctx, c, []);
    assert head <= c.pathInfo;
    assert c.pathInfo[|head|..] == more;
    assert "" + head == head;
  }

  lemma {:induction false} PostTestStep(ctx: Context)
    requires ctx.requestMethod == "POST"
    ensures Eval(RemainderRoutes(), ctx, Cursor("", "/test/world/moar"), []) ==
              Step(Halted(Passed(TextTriple("test-/world/moar"))), Cursor("/test/world/moar", ""))
  {
    var c := Cursor("", "/test/world/moar");
    var rs := RemainderRoutes();
    PostTestPath(ctx);
    HaltEndsBlock(rs[0], rs[1..], ctx, c, []);
    assert [rs[0]] + rs[1..] == rs;
  }

  lemma {:induction false} PostTestPath(ctx: Context)
    requires ctx.requestMethod == "POST"
    ensures EvalPath("test", TestRemainderBlock(), ctx, Cursor("", "/test/world/moar"), []) ==
              Step(Halted(Passed(TextTriple("test-/world/moar"))), Cursor("/test/world/moar", ""))
  {
    PostTestBlock(ctx, "/test", "/world/moar", "/test/world/moar", "test-/world/moar");
    PathEntersBeforeMore("test", "/test", "/world/moar", "/test/world/moar", TestRemainderBlock(), ctx);
  }

  /** POST /test/world/moar: path('test') { remainder { |rest| post { ... } } }
      answers 'test-/world/moar'. */
  lemma {:induction false} NestedRemainder()
    ensures Serve(RemainderRoutes(), Request("POST", "", "/test/world/moar", "", map[])) ==
              Responded(Passed(TextTriple("test-/world/moar")))
  {
    PostTestStep(ContextFor(Request("POST", "", "/test/world/moar", "", map[])));
  }

  lemma {:induction false} EchoHalts(p: string, inner: Cursor)
    requires inner.pathInfo == ""
    ensures EvalHandler(true, EchoTriple(""), inner, [Str(p)]) == Step(Halted(Passed(TextTriple(p))), inner)
  {
    assert "" + LastText([Str(p)]) == p;
  }

  lemma {:induction false} OuterRemainderHalts(ctx: Context, p: string)
    ensures EvalRoute(OuterRemainderRoute(), ctx, Cursor("", p), []) ==
              Step(Halted(Passed(TextTriple(p))), Cursor(p, ""))
  {
    var c := Cursor("", p);
    var inner := Cursor(p, "");
    var h := Handler(true, EchoTriple(""));
    EchoHalts(p, inner);
    EvalSingle(h, ctx, inner, [Str(p)]);
    assert "" + p == p;
    RemainderHalts([h], ctx, c, Step(Halted(Passed(TextTriple(p))), inner));
  }

  /** remainder answers what its block answers on the whole path, when
      the block halts. */
  lemma {:induction false} RemainderHalts(block: seq<Route>, ctx: Context, c: Cursor, answer: Step)
    requires Eval(block, ctx, Cursor(c.scriptName + c.pathInfo, ""), [Str(c.pathInfo)]) == answer
    requires !answer.outcome.Continue?
    ensures EvalRoute(Remainder(block), ctx, c, []) == answer
  {
    RemainderSpec(block, ctx, c, []);
    assert [] + [Str(c.pathInfo)] == [Str(c.pathInfo)];
  }

  lemma {:induction false} GetOtherStep(ctx: Context)
    ensures Eval(RemainderRoutes(), ctx, Cursor("", "/a/b/c"), []) ==
              Step(Halted(Passed(TextTriple("/a/b/c"))), Cursor("/a/b/c", ""))
  {
    var c := Cursor("", "/a/b/c");
    var rs := RemainderRoutes();
    assert StripLeadingSlash("test") == "test";
    PathSpec("test", TestRemainderBlock(), ctx, c, []);
    assert !("/" + "test" <= c.pathInfo) by {
      assert c.pathInfo[1] != 't';
    }
    EvalSkip(rs[0], rs[1..], ctx, c, []);
    assert [rs[0]] + rs[1..] == rs;
    OuterRemainderHalts(ctx, "/a/b/c");
    EvalSingle(rs[1], ctx, c, []);
    assert rs[1..] == [rs[1]];
  }

  /** GET /a/b/c: path('test') does not match, and the outer remainder
      answers the whole path. */
  lemma {:induction false} OuterRemainder()
    ensures Serve(RemainderRoutes(), GetRequest("/a/b/c")) == Responded(Passed(TextTriple("/a/b/c")))
  {
    GetOtherStep(ContextFor(GetRequest("/a/b/c")));
  }

  // ----- a Regexp as the variable type -----

  /** `halt [200, type, ["#{a + b}"]]` for two text captures. */
  function Concat(caps: seq<Capture>): Option<seq<ResponseValue>> {
    if |caps| == 2 && caps[0].Str? && caps[1].Str? then
      Some([RArray(TextTriple(caps[0].s + caps[1].s))])
    else None
  }

  function FooOrBar(): seq<string> {
    ["foo", "bar"]
  }

  /** path 'add' { variable /foo|bar/ do |a, b| ... end } */
  function AddWordsRoute(): Route {
    Path("add", [Variable(Pattern(FooOrBar()), 2, [Handler(true, Concat)])])
  }

  /** Two texts differing at position k: neither starts the other. */
  lemma {:induction false} NotPrefixAt(a: string, b: string, k: nat)
    requires k < |a| && k < |b| && a[k] != b[k]
    ensures !(a <= b)
  {
  }

  /** A literal then the rest of the pattern. */
  lemma {:induction false} LitThen(t: string, rest: seq<Atom>, s: string, whole: string, m: RegexMatch)
    requires whole == t + s && MatchAtoms(rest, s) == Some(m)
    ensures MatchAtoms([Lit(t)] + rest, whole) == Some(RegexMatch(|t| + m.len, m.captures))
  {
    MatchLitStep(t, rest, whole);
    assert whole[|t|..] == s;
    assert [] + m.captures == m.captures;
  }

  /** A group whose j-th alternative is the first to start the text, then
      the rest of the pattern. */
  lemma {:induction false} AltThen(options: seq<string>, j: nat, rest: seq<Atom>, s: string, after: string, m: RegexMatch)
    requires j < |options| && s == options[j] + after
    requires forall k :: 0 <= k < j ==> !(options[k] <= s)
    requires MatchAtoms(rest, after) == Some(m)
    ensures MatchAtoms([Alt(options)] + rest, s) == Some(RegexMatch(|options[j]| + m.len, [options[j]] + m.captures))
  {
    assert ([Alt(options)] + rest)[1..] == rest;
    assert s[|options[j]|..] == after;
    assert AltFits(options[j], rest, s);
    TryAlternativesFirst(options, rest, s, 0, j);
  }

  /** `/^\/(foo|bar)\/(foo|bar)/` on "/bar/foo": the first group backtracks
      from foo to bar, the second takes foo. */
  lemma {:induction false} BarFooMatch()
    ensures MatchAtoms(Repeat("/", Alt(FooOrBar()), 2), "/bar/foo") == Some(RegexMatch(8, ["bar", "foo"]))
  {
    var alt := Alt(FooOrBar());
    var last := [Lit("/"), alt];
    assert Repeat("/", alt, 2) == [Lit("/")] + ([alt] + last);
    assert [alt] + [] == [alt] && ["foo"] + [] == ["foo"];
    AltThen(FooOrBar(), 0, [], "foo", "", RegexMatch(0, []));
    assert [Lit("/")] + [alt] == last;
    LitThen("/", [alt], "foo", "/foo", RegexMatch(3, ["foo"]));
    NotPrefixAt("foo", "bar/foo", 0);
    AltThen(FooOrBar(), 1, last, "bar/foo", "/foo", RegexMatch(4, ["foo"]));
    assert ["bar"] + ["foo"] == ["bar", "foo"];
    LitThen("/", [alt] + last, "bar/foo", "/bar/foo", RegexMatch(7, ["bar", "foo"]));
  }

  lemma {:induction false} WordsVariableStep(ctx: Context, sn: string, whole: string)
    requires whole == sn + "/bar/foo"
    ensures EvalVariable("/", Pattern(FooOrBar()), 2, [Handler(true, Concat)], ctx, Cursor(sn, "/bar/foo"), []) ==
              Step(Halted(Passed(TextTriple("barfoo"))), Cursor(whole, ""))
  {
    var c := Cursor(sn, "/bar/foo");
    var inner := Cursor(whole, "");
    var h := Handler(true, Concat);
    var caps := [Str("bar"), Str("foo")];
    BarFooMatch();
    ConvertTexts(["bar", "foo"]);
    assert Texts(["bar", "foo"]) == caps;
    VariableEnters("/", Pattern(FooOrBar()), 2, [h], ctx, c, [], RegexMatch(8, ["bar", "foo"]), caps);
    assert "/bar/foo"[..8] == "/bar/foo";
    assert Moved(c, "/bar/foo") == inner;
    assert [] + caps == caps;
    BarFooAnswer(ctx, inner);
  }

  lemma {:induction false} BarFooAnswer(ctx: Context, inner: Cursor)
    requires inner.pathInfo == ""
    ensures Eval([Handler(true, Concat)], ctx, inner, [Str("bar"), Str("foo")]) ==
              Step(Halted(Passed(TextTriple("barfoo"))), inner)
  {
    assert "bar" + "foo" == "barfoo";
    EvalSingle(Handler(true, Concat), ctx, inner, [Str("bar"), Str("foo")]);
  }

  lemma {:induction false} AddWordsStep(ctx: Context, head: string, more: string, whole: string, answer: Step)
    requires head == "/add" && more == "/bar/foo" && whole == head + more
    requires answer == Step(Halted(Passed(TextTriple("barfoo"))), Cursor(whole, ""))
    ensures EvalRoute(AddWordsRoute(), ctx, Cursor("", whole), []) == answer
  {
    var block := [Variable(Pattern(FooOrBar()), 2, [Handler(true, Concat)])];
    WordsVariableStep(ctx, head, whole);
    EvalSingle(block[0], ctx, Cursor(head, more), []);
    assert Eval(block, ctx, Cursor(head, more), []) == answer;
    PathEntersBeforeMore("add", head, more, whole, block, ctx);
    assert EvalRoute(AddWordsRoute(), ctx, Cursor("", whole), []) == EvalPath("add", block, ctx, Cursor("", whole), []);
  }

  /** GET /add/bar/foo answers 'barfoo': a Regexp type matches each segment
      against its alternatives. */
  lemma {:induction false} RegexpVariables()
    ensures Serve([AddWordsRoute()], GetRequest("/add/bar/foo")) == Responded(Passed(TextTriple("barfoo")))
  {
    var ctx := ContextFor(GetRequest("/add/bar/foo"));
    AddWordsStep(ctx, "/add", "/bar/foo", "/add/bar/foo", Step(Halted(Passed(TextTriple("barfoo"))), Cursor("/add/bar/foo", "")));
    EvalSingle(AddWordsRoute(), ctx, Cursor("", "/add/bar/foo"), []);
  }

  // ----- part -----

  /** part('foo') on /x/foo: the pattern first matches "/foo" at index 2,
      and as many characters as the match has, "/x/f", are taken from the
      front of the path. */
  lemma {:induction false} PartFoundLater(block: seq<Route>, ctx: Context)
    ensures EvalPart("foo", block, ctx, Cursor("", "/x/foo"), []) ==
              Enter(block, ctx, Cursor("/x/f", "oo"), [], Cursor("", "/x/foo"))
  {
    var c := Cursor("", "/x/foo");
    FooFoundAtTwo();
    PartSpec("foo", block, ctx, c, []);
    assert "/x/foo"[..|"/foo"|] == "/x/f";
    assert Moved(c, "/x/f") == Cursor("/x/f", "oo");
  }

  lemma {:induction false} FooFoundAtTwo()
    ensures PartMatch("foo", "/x/foo") == Some("/foo")
  {
    var s := "/x/foo";
    assert s[0..] == s && s[1..] == "x/foo" && s[2..] == "/foo";
    NotPrefixAt("/foo", s, 1);
    NotPrefixAt("foo", s, 0);
    NotPrefixAt("/foo", "x/foo", 0);
    NotPrefixAt("foo", "x/foo", 0);
    assert NoPartAt("foo", s, 0) && NoPartAt("foo", s, 1);
    assert "/" + "foo" == "/foo";
    PartMatchFromLeftmost("foo", s, 0, 2);
  }

  /** halt :ok */
  function OkHandler(): Route {
    Handler(true, Always([RSym("ok")]))
  }

  /** part '/test' { part 'more' { halt :ok } } */
  function PartsRoute(): Route {
    Part("/test", [Part("more", [OkHandler()])])
  }

  lemma {:induction false} MorePart(ctx: Context, p: string, sn: string, whole: string, answer: Step)
    requires p == "more" && whole == sn + p
    requires answer == Step(Halted(Built(RInt(200), RStr(StatusCodeBody(200)))), Cursor(whole, ""))
    ensures EvalPart(p, [OkHandler()], ctx, Cursor(sn, p), []) == answer
  {
    var inner := Cursor(whole, "");
    PartTakesBareForm(p, "", p, sn, [OkHandler()], ctx);
    SymbolResponse("ok");
    assert EvalHandler(true, Always([RSym("ok")]), inner, []) == answer;
    EvalSingle(OkHandler(), ctx, inner, []);
  }

  /** part(p) where the path begins with p but not with "/p": p is taken. */
  lemma {:induction false} PartTakesBareForm(p: string, more: string, pi: string, sn: string, block: seq<Route>, ctx: Context)
    requires pi == p + more && !("/" + p <= pi)
    ensures EvalPart(p, block, ctx, Cursor(sn, pi), []) == Enter(block, ctx, Cursor(sn + p, more), [], Cursor(sn, pi))
  {
    var c := Cursor(sn, pi);
    assert p <= pi;
    PartSpec(p, block, ctx, c, []);
    assert pi[|p|..] == more;
  }

  lemma {:induction false} TestPart(ctx: Context)
    ensures EvalRoute(PartsRoute(), ctx, Cursor("", "/testmore"), []) ==
              Step(Halted(Built(RInt(200), RStr(StatusCodeBody(200)))), Cursor("/testmore", ""))
  {
    var inner := Part("more", [OkHandler()]);
    MorePart(ctx, "more", "/test", "/testmore", Step(Halted(Built(RInt(200), RStr(StatusCodeBody(200)))), Cursor("/testmore", "")));
    EvalSingle(inner, ctx, Cursor("/test", "more"), []);
    assert "/" + "/test" == "//test";
    NotPrefixAt("//test", "/testmore", 1);
    PartTakesBareForm("/test", "more", "/testmore", "", [inner], ctx);
    assert "" + "/test" == "/test";
  }

  /** GET /testmore answers 200: part('/test') takes "/test" and part('more')
      takes "more", no slash being needed before it. */
  lemma {:induction false} PartWithoutSlash()
    ensures Serve([PartsRoute()], GetRequest("/testmore")) == Responded(Built(RInt(200), RStr(StatusCodeBody(200))))
  {
    var ctx := ContextFor(GetRequest("/testmore"));
    TestPart(ctx);
    EvalSingle(PartsRoute(), ctx, Cursor("", "/testmore"), []);
  }
}

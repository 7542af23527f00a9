# Renee's routing core, modelled in Dafny

Renee is a Rack web framework in which an application is one Ruby block of
nested matchers. `path`, `part`, `variable`, `extension`, `remainder`,
`complete`, `query` and the method helpers `get`/`post`/`put`/`delete` each
either pass or consume a prefix of the remaining request path and run their
own block. `halt` ends the request with a response. An unmatched request
answers 404. Beside the router sit a registry of named URL generators
(`register`, `prefix`, `path`, `url`) and the example blog's post store.

This project models that core:

- **Routing** (`routing.dfy`, `patterns.dfy`, `routing_properties.dfy`).
  - An application is a deep embedding: a `Route` datatype with one
    constructor per matcher, and a block is a sequence of routes.
  - Ruby blocks that compute a response become `Handler` leaves. A handler
    maps the captured values to the arguments of `halt`/`halt!`.
  - Ruby block arity, which decides how many segments `variable` takes,
    is an explicit count.
  - The cursor is the pair `SCRIPT_NAME`/`PATH_INFO`. Every evaluation
    returns an outcome (continue, halted with a response, or raised)
    together with the new cursor.
  - Each regular expression of the source is a string function over
    `seq<char>`. The backtracking match of the `variable` regex is
    defined atom by atom and proved equal to a direct segment split.
- **In-place execution** (`application.dfy`). `Core.Application` is a class
  whose methods update the request environment's `SCRIPT_NAME` and
  `PATH_INFO` fields in place, as the Ruby code does. Each method is proved
  to give exactly the pure semantics.
- **Request entry and responses** (`request_context.dfy`, `responding.dfy`).
  - `call` derives the detected extension and the index flag once, runs
    the block, and maps the outcome to an answer.
  - `interpret_response` and the status table are modelled.
- **URL generation** (`url_generation.dfy`, `uri.dfy`, `hash.dfy`).
  - Generators, with placeholder filling by option, default or position,
    and left-over options as a query string.
  - The `prefix` stack of prefixes and defaults, as a class that saves
    and restores them.
  - The parts of `URI.parse` and of Ruby's ordered Hash that generation
    relies on.
- **The blog example** (`blog.dfy`): `Blog` and `Post` as classes over a
  sequence of posts and an id counter.
- **The repository's own test cases** (`routing_examples.dfy`,
  `url_generation_examples.dfy`) are restated as lemmas about the model.

Where the repository's tests and its code disagree, the model follows the
code:

- `var do |id| ... end` on `/var.html` captures `var.html`. The `[^\/]+`
  class admits dots, and the extension is matched without consuming
  anything. So the response is `html var.html`, not the `html var` that
  renee-core/test/routing_test.rb:304 expects
  (`RoutingExamples.VariableTakesTheExtension`).
- `exact_path` with a leading slash calls `part` without its argument,
  which raises in Ruby. The model answers with a raised outcome
  (`RoutingProperties.ExactPathSpec`).
- `path('test')` has no segment-boundary check: it also consumes `/test`
  from `/testmore`. `part` with a string is an unanchored match, yet it
  consumes from the front (`RoutingProperties.PathSpec`,
  `RoutingProperties.PartSpec`).
- The restore at the end of `with_path_part` is not in an `ensure`. A halt
  leaves the consumed path consumed (`RoutingProperties.HaltKeepsConsumed`,
  with `RoutingProperties.HaltSkipsRestore` as an instance).
- `payment_required` is 403 in the status table, as written
  (`Responding.StatusTable`).

One place departs from the code on purpose. The default-port comparison
at renee-core/lib/renee-core/url_generation.rb:87 never holds (see
"## Findings"). Registration uses the corrected port part
(`UrlGeneration.NewGenerator`). The generator as written is
`UrlGeneration.NewGeneratorAsWritten`, and
`UrlGeneration.AsWrittenUrlShowsDefaultPort` states the URLs it gives.

## Model

| member | source | states |
|---|---|---|
| Responding.StatusTable | renee-core/lib/renee-core/application/responding.rb:11-25 | the label table holds exactly its thirteen labels (the duplicated `no_content` once), `payment_required` is 403, and every code lies between 200 and 501 |
| Responding.StatusFor | renee-core/lib/renee-core/application/responding.rb:87 | a pair asks for the code of a known label, and for its first element unchanged otherwise |
| Responding.IntegerResponse | renee-core/lib/renee-core/application/responding.rb:91 | an integer n answers status n with the body "Status code n" |
| Responding.StringResponse | renee-core/lib/renee-core/application/responding.rb:90 | a string answers status 200 with that string as body |
| Responding.SymbolResponse | renee-core/lib/renee-core/application/responding.rb:92 | a known label answers exactly as its code does; an unknown label answers 200 with its name as body |
| Responding.PairResponse | renee-core/lib/renee-core/application/responding.rb:87 | a two-element array answers with the label's code (or the value itself) as status and the second element as body |
| Responding.RenderableIffShape | renee-core/lib/renee-core/application/responding.rb:82-94 | interpretation fails exactly for arrays whose size is neither 2 nor 3; a three-element array is handed back unchanged |
| Responding.Interpret | renee-core/lib/renee-core/application/responding.rb:82-94 | a value that is not an array always renders to a built response; the only failure is "cannot render" of the value itself |
| Responding.HaltBang | renee-core/lib/renee-core/application/responding.rb:40-42 | halt! never returns normally; one argument is interpreted alone, two or three as an array, none or more than three raise "cannot render" |
| Responding.Halt | renee-core/lib/renee-core/application/responding.rb:31-34 | halt raises while PATH_INFO is not empty and is halt! once it is |
| Patterns.StripLeadingSlash | renee-core/lib/renee-core/application/routing.rb:23 | exactly one leading slash is dropped, and nothing else changes |
| Patterns.PathMatch | renee-core/lib/renee-core/application/routing.rb:24 | path's pattern matches iff PATH_INFO starts with "/p"; it takes the trailing slash exactly when that slash is the whole rest of the path |
| Patterns.ExactMatch | renee-core/lib/renee-core/application/routing.rb:37 | exact_path's pattern matches iff PATH_INFO starts with "/p" and then takes exactly "/p" |
| Patterns.PartMatch | renee-core/lib/renee-core/application/routing.rb:42-43 | part's unanchored pattern matches "/p" or "p", never longer than the path |
| Patterns.PartMatchFromFinds | renee-core/lib/renee-core/application/routing.rb:42-43 | the unanchored pattern matches exactly when p occurs somewhere in the path |
| Patterns.PartMatchFromLeftmost | renee-core/lib/renee-core/application/routing.rb:42-43 | the match is found at the leftmost position where "/p" or "p" begins, and there "/p" is preferred to "p" |
| Patterns.DetectExtensionSpec | renee-core/lib/renee-core/application/request_context.rb:14 | the detected extension is e exactly when the path is some text, a dot and e, with e non-empty and free of dots and slashes |
| Patterns.DetectExtension | renee-core/lib/renee-core/application/request_context.rb:14 | a detected extension is non-empty, holds no dot or slash, and ends the path after a dot |
| Patterns.IsIndexPath | renee-core/lib/renee-core/application/request_context.rb:15 | a request is an index request iff PATH_INFO is at most one character and that character is a slash |
| Patterns.MatchAtoms | renee-core/lib/renee-core/application/routing.rb:221 | an anchored match never consumes more than the text |
| Patterns.TryAlternativesFirst | renee-core/lib/renee-core/application/routing.rb:81-82 | an alternation takes the first option that fits and lets the rest of the pattern match |
| Patterns.TryAlternativesNone | renee-core/lib/renee-core/application/routing.rb:81-82 | an alternation fails iff no option fits |
| Patterns.VariablePatternSegments | renee-core/lib/renee-core/application/routing.rb:221 | the backtracking regex match of the repeated variable pattern equals the split into slash-led maximal runs |
| Patterns.SegmentedSound | renee-core/lib/renee-core/application/routing.rb:221 | a successful split consumes n slash-led runs of the class, spelling out exactly the consumed text |
| Patterns.SegmentedComplete | renee-core/lib/renee-core/application/routing.rb:221 | every way of writing the front of the path as n slash-led maximal runs is the split found |
| Routing.EvalWithPathPart | renee-core/lib/renee-core/application/routing.rb:227-237 | with_path_part never alters SCRIPT_NAME+PATH_INFO, never shortens SCRIPT_NAME, and has restored the cursor when it returns normally |
| Routing.Eval | renee-core/lib/renee-core/application/request_context.rb:17 | a block never alters SCRIPT_NAME+PATH_INFO, never shortens SCRIPT_NAME, and leaves the cursor as it was when it returns normally |
| Routing.EvalRoute | renee-core/lib/renee-core/application/routing.rb:22-241 | every declaration never alters SCRIPT_NAME+PATH_INFO, never shortens SCRIPT_NAME, and leaves the cursor as it was when it returns normally |
| Routing.EvalPath | renee-core/lib/renee-core/application/routing.rb:22-25 | path never alters SCRIPT_NAME+PATH_INFO, never shortens SCRIPT_NAME, and leaves the cursor as it was when it returns normally |
| Routing.EvalWholePath | renee-core/lib/renee-core/application/routing.rb:29-31 | whole_path never alters SCRIPT_NAME+PATH_INFO, never shortens SCRIPT_NAME, and leaves the cursor as it was when it returns normally |
| Routing.EvalExactPath | renee-core/lib/renee-core/application/routing.rb:35-38 | exact_path never alters SCRIPT_NAME+PATH_INFO, never shortens SCRIPT_NAME, and leaves the cursor as it was when it returns normally |
| Routing.EvalPart | renee-core/lib/renee-core/application/routing.rb:41-46 | part never alters SCRIPT_NAME+PATH_INFO, never shortens SCRIPT_NAME, and leaves the cursor as it was when it returns normally |
| Routing.EvalVariable | renee-core/lib/renee-core/application/routing.rb:72-87 | partial_variable and variable never alter SCRIPT_NAME+PATH_INFO, never shorten SCRIPT_NAME, and leave the cursor as it was when they return normally |
| Routing.EvalExtension | renee-core/lib/renee-core/application/routing.rb:96-103 | extension never alters SCRIPT_NAME+PATH_INFO, never shortens SCRIPT_NAME, and leaves the cursor as it was when it returns normally |
| Routing.EvalNoExtension | renee-core/lib/renee-core/application/routing.rb:112-114 | no_extension never alters SCRIPT_NAME+PATH_INFO, never shortens SCRIPT_NAME, and leaves the cursor as it was when it returns normally |
| Routing.EvalRemainder | renee-core/lib/renee-core/application/routing.rb:122-124 | remainder never alters SCRIPT_NAME+PATH_INFO, never shortens SCRIPT_NAME, and leaves the cursor as it was when it returns normally |
| Routing.EvalComplete | renee-core/lib/renee-core/application/routing.rb:173-175 | complete never alters SCRIPT_NAME+PATH_INFO, never shortens SCRIPT_NAME, and leaves the cursor as it was when it returns normally |
| Routing.EvalQueryParams | renee-core/lib/renee-core/application/routing.rb:194 | query with a Hash never alters SCRIPT_NAME+PATH_INFO, never shortens SCRIPT_NAME, and leaves the cursor as it was when it returns normally |
| Routing.EvalQueryNames | renee-core/lib/renee-core/application/routing.rb:195-196 | query with names never alters SCRIPT_NAME+PATH_INFO, never shortens SCRIPT_NAME, and leaves the cursor as it was when it returns normally |
| Routing.EvalQueryString | renee-core/lib/renee-core/application/routing.rb:214-216 | query_string never alters SCRIPT_NAME+PATH_INFO, never shortens SCRIPT_NAME, and leaves the cursor as it was when it returns normally |
| Routing.EvalRequestMethod | renee-core/lib/renee-core/application/routing.rb:239-241 | request_method never alters SCRIPT_NAME+PATH_INFO, never shortens SCRIPT_NAME, and leaves the cursor as it was when it returns normally |
| Routing.Convert | renee-core/lib/renee-core/application/routing.rb:223 | conversion yields one value per capture, and without a transformer it never fails |
| Routing.Lookup | renee-core/lib/renee-core/application/routing.rb:195 | the named values are one per name, and they are found whenever every name is a parameter |
| Routing.EvalHandler | renee-core/lib/renee-core/application/responding.rb:31-42 | a halt throws and leaves the cursor where it is |
| RoutingProperties.WithPathPartEnters | renee-core/lib/renee-core/application/routing.rb:227-237 | with_path_part moves the first n characters of PATH_INFO onto SCRIPT_NAME, runs the block with the new arguments appended, and restores the cursor if the block returns |
| RoutingProperties.EvalAppend | renee-core/lib/renee-core/application/request_context.rb:17 | a block of two parts runs the second only when the first returns normally |
| RoutingProperties.EvalSkip | renee-core/lib/renee-core/application/request_context.rb:17 | a declaration that returns normally hands the unchanged cursor to the next one |
| RoutingProperties.HaltEndsBlock | renee-core/lib/renee-core/application/responding.rb:41 | once a declaration halts, no later declaration runs |
| RoutingProperties.PathSpec | renee-core/lib/renee-core/application/routing.rb:22-25 | path passes unless PATH_INFO starts with "/p"; it consumes "/p/" when that is the whole path and "/p" otherwise |
| RoutingProperties.ExactPathSpec | renee-core/lib/renee-core/application/routing.rb:35-38 | exact_path with a leading slash raises (it calls part without an argument); otherwise it consumes exactly "/p" or passes |
| RoutingProperties.PartSpec | renee-core/lib/renee-core/application/routing.rb:41-46 | part passes iff p occurs nowhere in the path; otherwise it takes as many characters from the front as its match has, which is "/p" when the path starts with "/p" and "p" when it starts with p alone |
| RoutingProperties.ConvertTexts | renee-core/lib/renee-core/application/routing.rb:223 | without a transformer each capture is yielded as its text |
| RoutingProperties.ConvertIntegers | renee-core/lib/renee-core/application/routing.rb:77 | with Integer the conversion succeeds iff every text converts, yields the values in order, and otherwise raises on the first bad text |
| RoutingProperties.SplitIffSegmented | renee-core/lib/renee-core/application/routing.rb:221 | the variable regex matches iff the path splits into n slash-led runs, and the match is that split |
| RoutingProperties.VariableSpec | renee-core/lib/renee-core/application/routing.rb:62-66 | variable passes when no split exists and otherwise consumes the segments and yields their texts |
| RoutingProperties.VariableEnters | renee-core/lib/renee-core/application/routing.rb:219-224 | for any supported type, a matching pattern whose captures convert moves the matched text to SCRIPT_NAME and runs the block with the converted values |
| RoutingProperties.VariableIntegerSpec | renee-core/lib/renee-core/application/routing.rb:76-77 | variable(Integer) consumes digit segments and yields their Integer values, or raises after consuming them |
| RoutingProperties.UnknownVariableTypeRaises | renee-core/lib/renee-core/application/routing.rb:83-84 | any other variable type raises before touching the path |
| RoutingProperties.RemainderSpec | renee-core/lib/renee-core/application/routing.rb:122-124 | remainder always enters, consuming and yielding all of PATH_INFO |
| RoutingProperties.CompleteSpec | renee-core/lib/renee-core/application/routing.rb:173-175 | complete enters iff PATH_INFO is empty or the request was an index request, and then consumes all of it |
| RoutingProperties.RequestMethodSpec | renee-core/lib/renee-core/application/routing.rb:239-241 | a verb passes on any other method; on its method it is complete, or whole_path when a path is given |
| RoutingProperties.GetAnswersOnlyGet | renee-core/lib/renee-core/application/routing.rb:133-135 | get never enters for another request method |
| RoutingProperties.LookupSpec | renee-core/lib/renee-core/application/routing.rb:195 | the named values are found iff every name is a parameter, and are then the parameter values in order |
| RoutingProperties.QueryParamsSpec | renee-core/lib/renee-core/application/routing.rb:194 | query with a Hash runs its block iff every expected key has the expected value |
| RoutingProperties.QueryNamesSpec | renee-core/lib/renee-core/application/routing.rb:195-196 | query with names yields the values in order iff all names are parameters, and never consumes the path |
| RoutingProperties.ExtensionSpec | renee-core/lib/renee-core/application/routing.rb:96-114 | extension passes unless e is the detected extension; on it, when the unanchored `/?.e` occurs in PATH_INFO it enters after moving as many characters from the front as the leftmost match has, and otherwise runs its block in place; no_extension runs its block iff none was detected |
| RoutingProperties.HaltKeepsConsumed | renee-core/lib/renee-core/application/routing.rb:227-237 | for every matcher that moves part of the path, the matcher halts or raises iff its block does, with the block's own cursor, so the moved part stays in SCRIPT_NAME; only a normal return restores the cursor |
| RoutingProperties.HaltSkipsRestore | renee-core/lib/renee-core/application/routing.rb:234-236 | one instance: a halt inside path(p) leaves "/p" consumed |
| RoutingProperties.StrictHandlerChecksPath | renee-core/lib/renee-core/application/responding.rb:31-34 | a halt with path left raises; with the path consumed it is halt! |
| RequestContext.ContextFor | renee-core/lib/renee-core/application/request_context.rb:13-15 | the request method, query string and parameters are the request's; the index flag is set iff PATH_INFO is "" or "/" |
| RequestContext.AnswerFor | renee-core/lib/renee-core/application/request_context.rb:17 | a block that returns answers 404, a halt answers its response, an exception escapes |
| RequestContext.Serve | renee-core/lib/renee-core/application/request_context.rb:12-18 | call raises only when the block raises, and every answer other than the 404 fallback is the response of a halt |
| RequestContext.DetectedExtensionSpec | renee-core/lib/renee-core/application/request_context.rb:14 | the context's extension is e iff PATH_INFO is some text, a dot and e |
| RequestContext.NotFoundWithoutHalt | renee-core/lib/renee-core/application/request_context.rb:17 | a block that never halts answers 404 "Not found" |
| RequestContext.FirstHaltAnswers | renee-core/lib/renee-core/application/request_context.rb:17 | the first declaration that halts gives the answer |
| Core.Application.Call | renee-core/lib/renee-core/application/request_context.rb:12-18 | call stores the environment, sets the detected extension and the index flag from the original PATH_INFO, answers exactly what the block's semantics answer, and leaves SCRIPT_NAME and PATH_INFO where the block's semantics leave them (restored after a normal return, still consumed after a halt or raise) |
| Core.Application.WithPathPart | renee-core/lib/renee-core/application/routing.rb:227-237 | the in-place SCRIPT_NAME/PATH_INFO updates give the with_path_part semantics |
| Core.Application.Run | renee-core/lib/renee-core/application/request_context.rb:17 | running declarations in place agrees with the block semantics |
| Core.Application.RunRoute | renee-core/lib/renee-core/application/routing.rb:22-241 | each declaration run in place agrees with its semantics |
| Core.Application.MatchPath | renee-core/lib/renee-core/application/routing.rb:22-25 | path in place agrees with its semantics |
| Core.Application.MatchWholePath | renee-core/lib/renee-core/application/routing.rb:29-31 | whole_path in place agrees with its semantics |
| Core.Application.MatchExactPath | renee-core/lib/renee-core/application/routing.rb:35-38 | exact_path in place agrees with its semantics |
| Core.Application.MatchPart | renee-core/lib/renee-core/application/routing.rb:41-46 | part in place agrees with its semantics |
| Core.Application.MatchVariable | renee-core/lib/renee-core/application/routing.rb:219-225 | complex_variable in place agrees with its semantics |
| Core.Application.MatchExtension | renee-core/lib/renee-core/application/routing.rb:96-103 | extension in place agrees with its semantics |
| Core.Application.MatchNoExtension | renee-core/lib/renee-core/application/routing.rb:112-114 | no_extension in place agrees with its semantics |
| Core.Application.MatchRemainder | renee-core/lib/renee-core/application/routing.rb:122-124 | remainder in place agrees with its semantics |
| Core.Application.MatchComplete | renee-core/lib/renee-core/application/routing.rb:173-175 | complete in place agrees with its semantics |
| Core.Application.MatchQueryParams | renee-core/lib/renee-core/application/routing.rb:194 | query with a Hash in place agrees with its semantics |
| Core.Application.MatchQueryNames | renee-core/lib/renee-core/application/routing.rb:195 | query with names, collected in a loop, agrees with its semantics |
| Core.Application.MatchQueryString | renee-core/lib/renee-core/application/routing.rb:214-216 | query_string in place agrees with its semantics |
| Core.Application.MatchRequestMethod | renee-core/lib/renee-core/application/routing.rb:239-241 | request_method in place agrees with its semantics |
| Core.Application.RunHandler | renee-core/lib/renee-core/application/responding.rb:31-42 | halt and halt! in place agree with their semantics |
| Core.Handle | renee-core/lib/renee-core.rb:40-42 | every request through a fresh Application answers what call's semantics answer |
| RoutingExamples.TrailingSlashIgnored | renee-core/test/routing_test.rb:103-115 | path('test') answers 'test' for both /test and /test/ |
| RoutingExamples.TrailingSlashKeptByExactPath | renee-core/test/routing_test.rb:117-123 | exact_path('test') leaves /test/ to the 404 |
| RoutingExamples.IntegerVariables | renee-core/test/routing_test.rb:199-212 | GET /add/3/4 with an Integer variable of arity 2 answers '7' |
| RoutingExamples.VariableTakesTheExtension | renee-core/test/routing_test.rb:288-302 | GET /var.html answers "html var.html": the variable takes the extension too |
| RoutingExamples.HtmlExtension | renee-core/test/routing_test.rb:258-280 | GET /test.html answers 'test html' |
| RoutingExamples.UnknownExtensionNotFound | renee-core/test/routing_test.rb:284-285 | GET /test.xml falls through to the 404 |
| RoutingExamples.NestedRemainder | renee-core/test/routing_test.rb:251-253 | POST /test/world/moar answers 'test-/world/moar' |
| RoutingExamples.OuterRemainder | renee-core/test/routing_test.rb:248-250 | GET /a/b/c answers '/a/b/c' |
| RoutingExamples.RegexpVariables | renee-core/test/routing_test.rb:214-227 | GET /add/bar/foo with a Regexp variable type matching foo or bar, of arity 2 answers 'barfoo' |
| RoutingExamples.PartWithoutSlash | renee-core/test/routing_test.rb:315-324 | GET /testmore with part('/test') around part('more') answers 200 |
| RoutingExamples.PartFoundLater | renee-core/lib/renee-core/application/routing.rb:41-46 | part('foo') on /x/foo finds "/foo" at index 2 and takes "/x/f" from the front |
| Text.RubyInteger | renee-core/lib/renee-core/application/routing.rb:77 | Integer() fails iff the text is empty, not all digits, or a leading zero followed by a non-octal digit; its value is never negative |
| Text.IntegerOfDecimalText | renee-core/lib/renee-core/application/routing.rb:77 | Integer() of the decimal text of n is n |
| Text.NatToStringValue | renee-core/lib/renee-core/application/responding.rb:91 | the decimal text of n reads back as n |
| RubyHash.BuildQuery | renee-core/lib/renee-core/url_generation.rb:99 | the query string is empty iff the Hash is |
| RubyHash.Get | renee-core/lib/renee-core/url_generation.rb:97 | reading gives nil only when no entry has the key |
| RubyHash.Store | renee-core/lib/renee-core/url_generation.rb:94 | after storing, reading the key gives the value, and the Hash grows by at most one entry |
| RubyHash.Delete | renee-core/lib/renee-core/url_generation.rb:97 | after delete, reading the key gives nil, and the Hash does not grow |
| RubyHash.Merge | renee-core/lib/renee-core/url_generation.rb:94 | the merged Hash has at least the first Hash's entries and at most both Hashes' entries |
| RubyHash.GetSpec | renee-core/lib/renee-core/url_generation.rb:97 | reading a key gives its value in the contents, and nil exactly for a missing key |
| RubyHash.StoreContents | renee-core/lib/renee-core/url_generation.rb:94 | storing sets that key and leaves every other key alone |
| RubyHash.StoreOrder | renee-core/lib/renee-core/url_generation.rb:94 | storing an existing key keeps the key order; a new key goes last |
| RubyHash.StoreUnique | renee-core/lib/renee-core/url_generation.rb:94 | storing keeps every key unique |
| RubyHash.DeleteKeys | renee-core/lib/renee-core/url_generation.rb:97 | delete removes that key and no other |
| RubyHash.DeleteContents | renee-core/lib/renee-core/url_generation.rb:97 | after delete the contents are the old ones without that key |
| RubyHash.DeleteUnique | renee-core/lib/renee-core/url_generation.rb:97 | delete keeps every key unique |
| RubyHash.DeleteAbsent | renee-core/lib/renee-core/url_generation.rb:97 | deleting a missing key changes nothing |
| RubyHash.MergeContents | renee-core/lib/renee-core/url_generation.rb:94 | merge gives the first Hash's contents overridden by the second's |
| RubyHash.MergeUnique | renee-core/lib/renee-core/url_generation.rb:94 | merge keeps every key unique |
| Uri.PathTemplate | renee-core/lib/renee-core/url_generation.rb:82-85 | a path template has no scheme, host or port and is its own path |
| Uri.ParseTemplate | renee-core/lib/renee-core/url_generation.rb:82-86 | a template with no host is its own path with no scheme or port; a port comes only with a host; the path is never longer than the template |
| Uri.AbsoluteTemplate | renee-core/lib/renee-core/url_generation.rb:82-86 | parsing scheme://host:port/path gives back scheme, host, the port's value and path |
| Uri.AbsoluteTemplateDefaultPort | renee-core/lib/renee-core/url_generation.rb:82-86 | without a port, http's default port 80 or https's 443 is taken (other schemes get none) |
| Uri.PortPartAsWritten | renee-core/lib/renee-core/url_generation.rb:87-89 | as written, a port part exists iff there is a port and the scheme is nil, http or https |
| Uri.PortPart | renee-core/lib/renee-core/url_generation.rb:87-89 | as intended, the port part is ":port" except for no port, other schemes, and the default port of http or https |
| Uri.DefaultPortShownAsWritten | renee-core/lib/renee-core/url_generation.rb:87 | as written, http://host/path gets the port part ":80" |
| Uri.DefaultPortHidden | renee-core/lib/renee-core/url_generation.rb:87 | as intended, http://host/path gets no port part |
| Uri.PortPartHidesDefault | renee-core/lib/renee-core/url_generation.rb:87-89 | the intended port part hides exactly the default port and agrees with the code on every other port |
| UrlGeneration.TokenizeRoundTrip | renee-core/lib/renee-core/url_generation.rb:95 | splitting a template into characters and placeholders loses nothing |
| UrlGeneration.NamesAreWords | renee-core/lib/renee-core/url_generation.rb:95 | every placeholder name is a non-empty run of word characters |
| UrlGeneration.Tokenize | renee-core/lib/renee-core/url_generation.rb:95 | a template gives no more tokens than it has characters |
| UrlGeneration.Take | renee-core/lib/renee-core/url_generation.rb:97 | a placeholder fails iff neither the options, the defaults nor the arguments supply it, with the "not found" error |
| UrlGeneration.Fill | renee-core/lib/renee-core/url_generation.rb:95-98 | filling only consumes positional arguments, and it fails only for a missing variable |
| UrlGeneration.WithQuery | renee-core/lib/renee-core/url_generation.rb:99 | the path comes first, and a query is added iff there are options left |
| UrlGeneration.OptsFor | renee-core/lib/renee-core/url_generation.rb:94 | the options are absent iff both the defaults and the call's options are; either alone is used as it is |
| UrlGeneration.OptsForContents | renee-core/lib/renee-core/url_generation.rb:94 | the call's options win over the defaults |
| UrlGeneration.Generator.Path | renee-core/lib/renee-core/url_generation.rb:92-100 | the gsub loop, deleting options and shifting arguments in place, gives the path the fill semantics defines |
| UrlGeneration.Generator.Expand | renee-core/lib/renee-core/url_generation.rb:92-100 | generating a path fails only for a missing variable |
| UrlGeneration.Generator.UrlFor | renee-core/lib/renee-core/url_generation.rb:102-105 | no host raises; otherwise the URL ends with the generated path, and a failing path fails the URL |
| UrlGeneration.Generator.Url | renee-core/lib/renee-core/url_generation.rb:102-105 | url computed step by step equals the URL semantics |
| UrlGeneration.NewGenerator | renee-core/lib/renee-core/url_generation.rb:80-90 | a generator keeps the defaults it was given |
| UrlGeneration.NewGeneratorAsWritten | renee-core/lib/renee-core/url_generation.rb:80-90 | the generator as written has the same defaults, host, path and scheme as the corrected one; only the port part differs |
| UrlGeneration.UrlFromTemplate | renee-core/lib/renee-core/url_generation.rb:80-105 | from scheme://host:port/path, url is the scheme, "://", the host, ":port" unless it is the scheme's default, then the generated path; a failing path fails the URL |
| UrlGeneration.UrlFromTemplateNoPort | renee-core/lib/renee-core/url_generation.rb:80-105 | from scheme://host/path, url is the scheme, "://", the host and the generated path |
| UrlGeneration.UrlFromPathTemplate | renee-core/lib/renee-core/url_generation.rb:82-103 | from a path template, url always raises for the missing host |
| UrlGeneration.AsWrittenUrlShowsDefaultPort | renee-core/lib/renee-core/url_generation.rb:86-104 | as written, http://host/path gives the URL http://host:80 followed by the generated path, and https gives :443 |
| UrlGeneration.DefaultsForGeneration | renee-core/lib/renee-core/url_generation.rb:71-73 | the defaults are absent iff both are; either alone is used as it is |
| UrlGeneration.DefaultsForGenerationContents | renee-core/lib/renee-core/url_generation.rb:71-73 | the given defaults win over the context's, and keys stay unique |
| UrlGeneration.FillLeavesOptions | renee-core/lib/renee-core/url_generation.rb:95-99 | the options left for the query are the options without every placeholder name |
| UrlGeneration.DeleteAllContents | renee-core/lib/renee-core/url_generation.rb:97-99 | those left-over options are the contents without the placeholder names |
| UrlGeneration.FillPositional | renee-core/lib/renee-core/url_generation.rb:95-98 | without options or defaults, generation succeeds iff there are enough arguments, fills the placeholders in order and ignores the rest |
| UrlGeneration.FillNamed | renee-core/lib/renee-core/url_generation.rb:95-98 | when every placeholder is named once in the options, each takes its option and no argument is used |
| UrlGeneration.DeclaredFrame | renee-core/lib/renee-core/url_generation.rb:17-19 | a block registers exactly its names and leaves every other generator as it was |
| UrlGeneration.DeclaredAppend | renee-core/lib/renee-core/url_generation.rb:41 | running two blocks in turn is running their concatenation |
| UrlGeneration.PrefixedRegistration | renee-core/lib/renee-core/url_generation.rb:30-45 | a name registered in a prefix block gets the prefix in front of its pattern and the block's defaults merged under its own |
| UrlGeneration.PathNamed | renee-core/lib/renee-core/url_generation.rb:53-56 | path raises iff no generator has the name, and is otherwise the generator's path |
| UrlGeneration.UrlNamed | renee-core/lib/renee-core/url_generation.rb:61-64 | url raises iff no generator has the name, and is otherwise the generator's URL |
| UrlGeneration.FillFailures | renee-core/lib/renee-core/url_generation.rb:97 | filling fails only for a missing variable |
| UrlGeneration.ExpandFailures | renee-core/lib/renee-core/url_generation.rb:92-100 | generating a path fails only for a missing variable |
| UrlGeneration.Registry.constructor | renee-core/lib/renee-core/url_generation.rb:67-69 | a new registry has no generators |
| UrlGeneration.Generation.constructor | renee-core/lib/renee-core/url_generation.rb:67-73 | a new context has no prefix and no defaults |
| UrlGeneration.Generation.Register | renee-core/lib/renee-core/url_generation.rb:17-19 | register stores the generator for prefix+pattern with the merged defaults under the name, replacing any earlier one |
| UrlGeneration.Generation.Prefix | renee-core/lib/renee-core/url_generation.rb:30-45 | prefix makes a fresh context on the same registry with the longer prefix and merged defaults, runs the block, and restores its own prefix and defaults |
| UrlGeneration.Generation.Run | renee-core/lib/renee-core/url_generation.rb:41 | running a block in a context registers what the declarative semantics registers |
| UrlGeneration.Generation.Perform | renee-core/lib/renee-core/url_generation.rb:41 | one declaration does what the declarative semantics says |
| UrlGeneration.Generation.Path | renee-core/lib/renee-core/url_generation.rb:53-56 | path through a context is the named path |
| UrlGeneration.Generation.Url | renee-core/lib/renee-core/url_generation.rb:61-64 | url through a context is the named URL |
| UrlGenerationExamples.OnePlaceholder | renee-core/lib/renee-core/url_generation.rb:95 | a colon-free text followed by ":name" is that text's characters and one placeholder |
| UrlGenerationExamples.ExpandOne | renee-core/lib/renee-core/url_generation.rb:92-100 | a template with one placeholder takes one value for it and appends the left-over options as a query |
| UrlGenerationExamples.NoPlaceholders | renee-core/test/url_generation_test.rb:8-10 | a template without placeholders is its own path, followed by any options |
| UrlGenerationExamples.Positional | renee-core/test/url_generation_test.rb:12 | '/test/:id' with 123 gives '/test/123' |
| UrlGenerationExamples.Named | renee-core/test/url_generation_test.rb:11 | '/test/:id' with id: 123 gives '/test/123' |
| UrlGenerationExamples.ExtraOptionPositional | renee-core/test/url_generation_test.rb:31 | an extra option becomes the query: '/foo?bar=baz' |
| UrlGenerationExamples.ExtraOptionNamed | renee-core/test/url_generation_test.rb:32 | the same with the placeholder named |
| UrlGenerationExamples.DefaultUsed | renee-core/test/url_generation_test.rb:38 | a default fills its placeholder and leaves no query |
| UrlGenerationExamples.DefaultOverridden | renee-core/test/url_generation_test.rb:39 | the call's option beats the default |
| UrlGenerationExamples.DefaultAsQueryPositional | renee-core/test/url_generation_test.rb:45 | a default for another name goes into the query |
| UrlGenerationExamples.DefaultAsQueryNamed | renee-core/test/url_generation_test.rb:46 | the same with the placeholder named |
| UrlGenerationExamples.UrlWithPort | renee-core/test/url_generation_test.rb:18 | 'http://localhost:8080/test/:time' with 123 gives the URL with :8080 kept |
| UrlGenerationExamples.UrlWithPortNamed | renee-core/test/url_generation_test.rb:19 | the same with time: '654' |
| UrlGenerationExamples.PrefixedPath | renee-core/test/url_generation_test.rb:49-55 | a prefix block puts '/foo' in front of '/bar' |
| UrlGenerationExamples.PrefixDefaultsOverridden | renee-core/test/url_generation_test.rb:63 | a registration's default beats the block's: '/foo/bar?bar=bam' |
| UrlGenerationExamples.PrefixDefaultsInherited | renee-core/test/url_generation_test.rb:64 | the block's default applies otherwise: '/foo/baz?bar=baz' |
| UrlGenerationExamples.TestVarPath | renee-core/test/url_generation_test.rb:9-12 | the first test case with its own literals |
| UrlGenerationExamples.TestPrefixDefaults | renee-core/test/url_generation_test.rb:57-63 | the last test case with its own literals |
| Blog.WithoutContents | renee/examples/blog/blog.rb:17-19 | deleting removes every occurrence of the post and keeps every other post as often as it was there |
| Blog.WithoutMembers | renee/examples/blog/blog.rb:17-19 | the posts that stay are exactly the others, and there are no more of them than before |
| Blog.WithoutAppend | renee/examples/blog/blog.rb:17-19 | deleting from a concatenation is deleting from each part, in order, so the posts that stay keep their original order |
| Blog.WithoutOne | renee/examples/blog/blog.rb:17-19 | deleting from a single post drops it iff it is the deleted post |
| Blog.Without | renee/examples/blog/blog.rb:17-19 | the post is gone afterwards, and there are no more posts than before |
| Blog.FirstWithId | renee/examples/blog/blog.rb:13-15 | the index found has the number and every earlier post has another |
| Blog.Blog.constructor | renee/examples/blog/blog.rb:4-7 | a new blog has no posts, has handed out no number, and is valid |
| Blog.Blog.NewPost | renee/examples/blog/blog.rb:9-11 | the number goes up by one, a fresh post with it and the given title and contents is appended, and validity is kept |
| Blog.Blog.FindPost | renee/examples/blog/blog.rb:13-15 | find_post answers the first post with the number, or nil |
| Blog.Blog.DeletePost | renee/examples/blog/blog.rb:17-19 | every occurrence of the post goes, the answer is the post iff it was there, and validity is kept |
| Blog.Post.constructor | renee/examples/blog/blog.rb:25-28 | a post holds its blog, number, title and contents |
| Blog.Post.SetTitle | renee/examples/blog/blog.rb:34-37 | title= changes the title and only the title |
| Blog.Post.SetContents | renee/examples/blog/blog.rb:39-42 | contents= changes the contents and only the contents |
| Blog.Post.Delete | renee/examples/blog/blog.rb:44-46 | delete! removes the post from its own blog |
| Blog.AppendKeepsPosts | renee/examples/blog/blog.rb:10 | appending a post numbered one past the last keeps the blog valid |
| Blog.WithoutKeepsPosts | renee/examples/blog/blog.rb:18 | deleting keeps the blog valid |
| Blog.FindsTheOnlyPost | renee/examples/blog/blog.rb:14 | in a valid blog, find_post by a post's number finds that post |
| Blog.NextIdIsNew | renee/examples/blog/blog.rb:10 | no post of a valid blog has the number new_post hands out next |
| Blog.NewPostFound | renee/examples/blog/blog.rb:9-15 | find_post with the number new_post just handed out finds the new post |
| Blog.DeletedNotFound | renee/examples/blog/blog.rb:13-19 | once a post of a valid blog is deleted, find_post by its number finds nothing |

## Left out

- `redirect`, `redirect!`, `respond` and `respond!` (responding.rb), and `run`, `run!`, `build` and `build!` (rack_interaction.rb): they hand the request to Rack applications or build a `Rack::Response`, and rack_interaction.rb is not part of this model.
- `Response.new(body, status).finish` is kept abstract. A built response is the pair (status, body), and a three-element array is passed on unchanged. Headers and `Content-Type` are not modelled.
- Rack's parsing of query parameters: the parameters are a given map from names to strings.
- Ruby `===` in `query` and `query_string`: a Hash entry matches by string equality, and `query_string` compares the whole query string for equality. Regexp and Class patterns are not modelled.
- A Regexp as a variable type is modelled only as an alternation of literal texts (`/foo|bar/`, `VarType.Pattern`), matched with Ruby's leftmost-alternative backtracking. Other Regexp syntax (classes, quantifiers, groups, anchors inside the Regexp) is not modelled; the untyped (`[^\/]+`) and Integer (`\d+`) types are, and any other type raises.
- Ruby's `^` and `$` are line anchors. The model reads them as anchors of the whole string, because request paths contain no newlines.
- The extension in `extension(e)` is spliced into its regex unescaped. The model compares it literally, so an extension holding regex metacharacters is not modelled.
- The arity `warn` at routing.rb:220 writes to standard error and is left out. The count of segments is taken as given.
- The Ruby block that computes a response is a function from the captured values to the arguments of `halt`/`halt!`. Arbitrary Ruby code in a block, and blocks that mutate the environment themselves, are not modelled.
- Values are strings: options, defaults and captures are the text Ruby's `to_s` would give. Symbols and integers as option values are written as their text.
- `URI.parse` covers the two template forms (a path, or `scheme://host[:port]/path`). It does not raise `URI::InvalidURIError`, does not fold the scheme's case, and reads an authority whose port is not numeric as a host. It knows the default ports of http (80) and https (443) only: Ruby gives `ftp://h/x` the port 21 where the model gives none. No port part depends on this, since a port part is shown only for no scheme, http or https.
- `URI.encode` is the identity and `Rack::Utils.build_query` does no escaping. So the escaping test of `føø` (url_generation_test.rb:22-26) is not modelled.
- `UrlGeneration.NewGenerator`: builds the port part with the corrected comparison (`Uri.PortPart`), not the one written at url_generation.rb:87, so a registered `http://localhost/test` gives `http://localhost/test` rather than Ruby's `http://localhost:80/test`. The generator as written is `UrlGeneration.NewGeneratorAsWritten`, and `UrlGeneration.AsWrittenUrlShowsDefaultPort` states its URLs. Its own contract promises only the defaults; the URL it yields is stated by `UrlGeneration.UrlFromTemplate`, `UrlGeneration.UrlFromTemplateNoPort` and `UrlGeneration.UrlFromPathTemplate`.
- Inside a `prefix` block, declarations go to the context the block is evaluated in. A block that calls `register` on the captured top-level object behaves the same one level deep, because `prefix` also sets that object's own prefix and defaults while the block runs. Deeper nesting is not modelled: in `r.prefix('/a') { prefix('/b') { r.register(:x, '/c') } }` Ruby registers `/a/c` (the inner `prefix` changes only the sub-generator), while the model registers `/a/b/c`.
- `UrlGeneration.Generator.Path` and `UrlGeneration.Generator.Expand` take the options as a value. When a generator has no defaults, url_generation.rb:93-97 deletes each used placeholder from the caller's own Hash, so passing the same Hash twice (`h = {id: '1'}; r.path(:x, h); r.path(:x, h)`) raises "variable :id not found" the second time. The model leaves the caller's options unchanged, so this aliasing effect is not captured; with defaults, Ruby works on a copy, as the model does.
- An exception raised inside a `prefix` block would skip the restore of the prefix and defaults. The model's declarations cannot raise.
- `Blog.Blog.NewPost` returns the new post, while Ruby's `<<` returns the array of posts, which ends with that post.
- `Blog.Blog.NewPost` and `Blog.Blog.DeletePost` preserve the blog invariant as `old(Valid()) ==> Valid()`, since the Ruby methods accept any state.
- `Time.new` timestamps (`created_at`, `updated_at`) and `Post#touch!`, since the model has no clock. `title=` and `contents=` are modelled without the timestamp they also set.
- `Core#setup`, settings.rb, renee.rb and the rendering gem (configuration, file loading and Tilt templates).
- Concurrency: each request runs on a fresh application (`Core.Handle`), and nothing is shared between requests.
- Routing terminates by the structure of the route tree. Ruby allows a block to loop or recurse without bound, which is not modelled.

## Findings

| source | as written | input that shows it | evidently intended | confidence | as-written member | corrected member |
|---|---|---|---|---|---|---|
| renee-core/lib/renee-core/url_generation.rb:87 | `URI.parse` gives the port as an Integer, and it is compared with the Strings `'80'` and `'443'`, so the default port is never recognised | a generator registered as `http://localhost/test` gives the URL `http://localhost:80/test` | the port is shown unless it is the scheme's default (80 for http, 443 for https) | not executed | UrlGeneration.AsWrittenUrlShowsDefaultPort | UrlGeneration.UrlFromTemplateNoPort |

/** The regular expressions of the routing core, written out as string
    functions. Ruby's `^` and `$` anchor at line boundaries; request paths
    hold no line break, so they are modelled as the string's own ends. */
module Patterns {
  import opened Wrappers
  import opened Text

  /** `p[1, p.size] if p[0] == ?/`: a single leading slash is dropped. */
  function StripLeadingSlash(p: string): (q: string)
    ensures |p| > 0 && p[0] == '/' ==> p == "/" + q
    ensures !(|p| > 0 && p[0] == '/') ==> q == p
  {
    if |p| > 0 && p[0] == '/' then p[1..] else p
  }

  /** `/^\/#{p}(\/?$)?/` against PATH_INFO: the text it matches. The
      optional group takes a slash only when that slash ends the path, and
      nothing checks a segment boundary after `p`. */
  function PathMatch(p: string, s: string): (m: Option<string>)
    ensures m.Some? <==> "/" + p <= s
    ensures m.Some? ==> m.value <= s
    ensures m.Some? ==> (m.value == "/" + p + "/" <==> s == "/" + p + "/")
    ensures m.Some? && s != "/" + p + "/" ==> m.value == "/" + p
  {
    var head := "/" + p;
    if !(head <= s) then None
    else if s[|head|..] == "/" then Some(head + "/")
    else Some(head)
  }

  /** `/^\/#{p}/`: exact_path's pattern, which never takes a trailing slash. */
  function ExactMatch(p: string, s: string): (m: Option<string>)
    ensures m.Some? <==> "/" + p <= s
    ensures m.Some? ==> m.value == "/" + p
  {
    if "/" + p <= s then Some("/" + p) else None
  }

  /** `t` occurs in `s` starting at or after position `i`. */
  ghost predicate OccursFrom(t: string, s: string, i: nat) {
    exists j :: i <= j <= |s| && t <= s[j..]
  }

  /** Leftmost match of the unanchored `/\/?#{p}/` at or after `i`: at each
      position the optional slash is tried first. */
  function PartMatchFrom(p: string, s: string, i: nat): (m: Option<string>)
    requires i <= |s|
    ensures m.Some? ==> m.value == "/" + p || m.value == p
    ensures m.Some? ==> |m.value| <= |s| - i
    decreases |s| - i
  {
    if "/" + p <= s[i..] then Some("/" + p)
    else if p <= s[i..] then Some(p)
    else if i == |s| then None
    else PartMatchFrom(p, s, i + 1)
  }

  /** `PATH_INFO[/\/?#{p}/]`: `part` with a String, and (with ".ext") the
      extension pattern. The match may start anywhere in the path. */
  function PartMatch(p: string, s: string): (m: Option<string>)
    ensures m.Some? ==> m.value == "/" + p || m.value == p
    ensures m.Some? ==> |m.value| <= |s|
  {
    PartMatchFrom(p, s, 0)
  }

  /** The unanchored pattern matches exactly when `p` occurs in the path. */
  lemma {:induction false} PartMatchFromFinds(p: string, s: string, i: nat)
    requires i <= |s|
    ensures PartMatchFrom(p, s, i).Some? <==> OccursFrom(p, s, i)
    decreases |s| - i
  {
    if "/" + p <= s[i..] {
      assert p <= s[i + 1..] by {
        assert s[i + 1..] == s[i..][1..];
      }
      assert OccursFrom(p, s, i);
    } else if p <= s[i..] {
      assert OccursFrom(p, s, i);
    } else if i == |s| {
    } else {
      PartMatchFromFinds(p, s, i + 1);
      if OccursFrom(p, s, i) {
        var j :| i <= j <= |s| && p <= s[j..];
        assert j != i;
        assert OccursFrom(p, s, i + 1);
      }
      if OccursFrom(p, s, i + 1) {
        var j :| i + 1 <= j <= |s| && p <= s[j..];
        assert OccursFrom(p, s, i);
      }
    }
  }

  /** Neither "/p" nor "p" starts at position k. */
  predicate NoPartAt(p: string, s: string, k: nat)
    requires k <= |s|
  {
    !("/" + p <= s[k..]) && !(p <= s[k..])
  }

  /** The match is the leftmost one, and at its position the form with the
      slash wins: when j is the first position from i at which "/p" or "p"
      starts, the pattern yields "/p" if "/p" starts there and "p"
      otherwise. */
  lemma {:induction false} PartMatchFromLeftmost(p: string, s: string, i: nat, j: nat)
    requires i <= j <= |s|
    requires forall k :: i <= k < j ==> NoPartAt(p, s, k)
    requires "/" + p <= s[j..] || p <= s[j..]
    ensures PartMatchFrom(p, s, i) == if "/" + p <= s[j..] then Some("/" + p) else Some(p)
    decreases j - i
  {
    if i < j {
      assert NoPartAt(p, s, i);
      PartMatchFromLeftmost(p, s, i + 1, j);
    }
  }

  // ----- request_context.rb: the values derived once per request -----

  /** Text that `[^\.\/]+` can match in full. */
  predicate IsExtensionText(e: string) {
    |e| > 0 && forall k :: 0 <= k < |e| ==> e[k] != '.' && e[k] != '/'
  }

  function DetectFrom(s: string, i: nat): (r: Option<string>)
    decreases |s| - i
  {
    if i >= |s| then None
    else if s[i] == '.' && IsExtensionText(s[i + 1..]) then Some(s[i + 1..])
    else DetectFrom(s, i + 1)
  }

  /** `PATH_INFO[/\.([^\.\/]+)$/, 1]`: the leftmost dot followed by
      extension text reaching the end of the path. */
  function DetectExtension(s: string): (r: Option<string>)
    ensures r.Some? ==> IsExtensionText(r.value) && exists a :: s == a + "." + r.value
  {
    DetectFromSound(s, 0);
    DetectFrom(s, 0)
  }

  lemma {:induction false} DetectFromSound(s: string, i: nat)
    ensures DetectFrom(s, i).Some? ==>
              exists a :: s == a + "." + DetectFrom(s, i).value && IsExtensionText(DetectFrom(s, i).value)
    decreases |s| - i
  {
    if i >= |s| {
    } else if s[i] == '.' && IsExtensionText(s[i + 1..]) {
      assert s == s[..i] + "." + s[i + 1..];
    } else {
      DetectFromSound(s, i + 1);
    }
  }

  lemma {:induction false} DetectFromComplete(a: string, e: string, i: nat)
    requires IsExtensionText(e)
    requires i <= |a|
    ensures DetectFrom(a + "." + e, i) == Some(e)
    decreases |a| - i
  {
    var s := a + "." + e;
    if i == |a| {
      assert s[i] == '.' && s[i + 1..] == e;
    } else {
      assert s[i + 1..][|a| - i - 1] == '.';
      assert !IsExtensionText(s[i + 1..]);
      DetectFromComplete(a, e, i + 1);
    }
  }

  /** The detected extension is `e` exactly when the path is some text, a
      dot, and then `e`, where `e` is non-empty and holds no dot or slash. */
  lemma {:induction false} DetectExtensionSpec(s: string, e: string)
    ensures DetectExtension(s) == Some(e) <==> exists a :: s == a + "." + e && IsExtensionText(e)
  {
    DetectFromSound(s, 0);
    if exists a :: s == a + "." + e && IsExtensionText(e) {
      var a :| s == a + "." + e && IsExtensionText(e);
      DetectFromComplete(a, e, 0);
    }
  }

  /** `PATH_INFO[/^\/?$/]` is truthy (even the empty match "" is). */
  function IsIndexPath(s: string): (b: bool)
    ensures b <==> |s| <= 1 && forall k :: 0 <= k < |s| ==> s[k] == '/'
  {
    s == "" || s == "/"
  }

  // ----- complex_variable: a small backtracking matcher -----

  /** The character classes of variable segments: `[^\/]` and `\d`. */
  datatype CharClass = NonSlash | Digit

  predicate InClass(cls: CharClass, c: char) {
    match cls
    case NonSlash => c != '/'
    case Digit => IsDigit(c)
  }

  /** One element of a variable regex: literal text, a captured `(cls+)`,
      or a captured alternation of literal texts (`/foo|bar/`). */
  datatype Atom = Lit(text: string) | Plus(cls: CharClass) | Alt(options: seq<string>)

  /** A successful anchored match: how many characters, and the captures. */
  datatype RegexMatch = RegexMatch(len: nat, captures: seq<string>)

  /** Length of the longest prefix of `s` made of `cls` characters. */
  function RunLength(cls: CharClass, s: string): (n: nat)
    ensures n <= |s|
  {
    if s == [] || !InClass(cls, s[0]) then 0 else 1 + RunLength(cls, s[1..])
  }

  /** The run is made of class characters and cannot be extended. */
  lemma {:induction false} RunLengthMaximal(cls: CharClass, s: string)
    ensures forall k :: 0 <= k < RunLength(cls, s) ==> InClass(cls, s[k])
    ensures RunLength(cls, s) < |s| ==> !InClass(cls, s[RunLength(cls, s)])
  {
    if s != [] && InClass(cls, s[0]) {
      RunLengthMaximal(cls, s[1..]);
      assert forall k :: 1 <= k < |s| ==> s[k] == s[1..][k - 1];
    }
  }

  function Shift(t: string, captured: seq<string>, r: Option<RegexMatch>): Option<RegexMatch> {
    match r
    case None => None
    case Some(m) => Some(RegexMatch(|t| + m.len, captured + m.captures))
  }

  /** Anchored, backtracking match of `atoms` at the start of `s`, trying
      alternatives in order and `+` repetitions longest first, as Ruby's
      regex engine does. */
  function MatchAtoms(atoms: seq<Atom>, s: string): (r: Option<RegexMatch>)
    ensures r.Some? ==> r.value.len <= |s|
    decreases |atoms|, 1, 0
  {
    if atoms == [] then Some(RegexMatch(0, []))
    else
      match atoms[0]
      case Lit(t) => if t <= s then Shift(t, [], MatchAtoms(atoms[1..], s[|t|..])) else None
      case Plus(cls) => TryRun(cls, atoms[1..], s, RunLength(cls, s))
      case Alt(options) => TryAlternatives(options, atoms[1..], s, 0)
  }

  /** `(cls+)` followed by `rest`: take k characters, then fewer. */
  function TryRun(cls: CharClass, rest: seq<Atom>, s: string, k: nat): (r: Option<RegexMatch>)
    requires k <= |s|
    ensures r.Some? ==> r.value.len <= |s|
    decreases |rest| + 1, 0, k
  {
    if k == 0 then None
    else
      match MatchAtoms(rest, s[k..])
      case Some(m) => Some(RegexMatch(k + m.len, [s[..k]] + m.captures))
      case None => TryRun(cls, rest, s, k - 1)
  }

  /** `(o1|o2|...)` followed by `rest`: each alternative from the i-th on. */
  function TryAlternatives(options: seq<string>, rest: seq<Atom>, s: string, i: nat): (r: Option<RegexMatch>)
    ensures r.Some? ==> r.value.len <= |s|
    decreases |rest| + 1, 0, |options| - i
  {
    if i >= |options| then None
    else if options[i] <= s then
      match MatchAtoms(rest, s[|options[i]|..])
      case Some(m) => Some(RegexMatch(|options[i]| + m.len, [options[i]] + m.captures))
      case None => TryAlternatives(options, rest, s, i + 1)
    else TryAlternatives(options, rest, s, i + 1)
  }

  /** Alternative `o` can start the text and the rest of the pattern can
      match after it. */
  predicate AltFits(o: string, rest: seq<Atom>, s: string) {
    o <= s && MatchAtoms(rest, s[|o|..]).Some?
  }

  /** Ruby tries the alternatives of a group left to right and backtracks
      into the next one when the rest of the pattern fails: the match is
      the first alternative from the i-th on that fits, followed by the
      rest's own match. */
  lemma {:induction false} TryAlternativesFirst(options: seq<string>, rest: seq<Atom>, s: string, i: nat, j: nat)
    requires i <= j < |options|
    requires forall k :: i <= k < j ==> !AltFits(options[k], rest, s)
    requires AltFits(options[j], rest, s)
    ensures var m := MatchAtoms(rest, s[|options[j]|..]).value;
            TryAlternatives(options, rest, s, i) == Some(RegexMatch(|options[j]| + m.len, [options[j]] + m.captures))
    decreases j - i
  {
    if i < j {
      assert !AltFits(options[i], rest, s);
      TryAlternativesFirst(options, rest, s, i + 1, j);
    }
  }

  /** The group fails exactly when no alternative from the i-th on fits. */
  lemma {:induction false} TryAlternativesNone(options: seq<string>, rest: seq<Atom>, s: string, i: nat)
    ensures TryAlternatives(options, rest, s, i).None? <==>
              forall k :: i <= k < |options| ==> !AltFits(options[k], rest, s)
    decreases |options| - i
  {
    if i < |options| {
      TryAlternativesNone(options, rest, s, i + 1);
    }
  }

  /** `/^#{matcher * n}/` where matcher is `#{prepend}(<capture>)`. */
  function Repeat(prepend: string, capture: Atom, n: nat): (atoms: seq<Atom>)
    ensures |atoms| == 2 * n
  {
    if n == 0 then [] else [Lit(prepend), capture] + Repeat(prepend, capture, n - 1)
  }

  // ----- an independent description of what `variable` captures -----

  /** Segments written back as text: "/" before each. */
  function SlashJoin(parts: seq<string>): (s: string)
  {
    if parts == [] then "" else "/" + parts[0] + SlashJoin(parts[1..])
  }

  predicate IsRun(cls: CharClass, t: string) {
    |t| > 0 && forall k :: 0 <= k < |t| ==> InClass(cls, t[k])
  }

  /** A segment "/" + part in front of the segments that follow it. */
  function Prefixed(part: string, r: Option<RegexMatch>): Option<RegexMatch> {
    match r
    case None => None
    case Some(m) => Some(RegexMatch(1 + |part| + m.len, [part] + m.captures))
  }

  /** n segments, each a slash followed by the longest non-empty run of
      `cls` characters, split off the front of `s`. */
  function Segmented(cls: CharClass, s: string, n: nat): Option<RegexMatch> {
    if n == 0 then Some(RegexMatch(0, []))
    else if s != [] && s[0] == '/' && RunLength(cls, s[1..]) > 0 then
      var k := RunLength(cls, s[1..]);
      Prefixed(s[1..1 + k], Segmented(cls, s[1 + k..], n - 1))
    else None
  }

  /** What a successful split means: n runs of the class, each after a
      slash, spelling out exactly the consumed text, the last one as long
      as it can be. */
  predicate SplitsAs(cls: CharClass, s: string, n: nat, m: RegexMatch) {
    && |m.captures| == n && m.len <= |s|
    && s[..m.len] == SlashJoin(m.captures)
    && (forall i :: 0 <= i < n ==> IsRun(cls, m.captures[i]))
    && (n > 0 && m.len < |s| ==> !InClass(cls, s[m.len]))
  }

  lemma {:induction false} SegmentedSound(cls: CharClass, s: string, n: nat)
    ensures var r := Segmented(cls, s, n);
            r.Some? ==> SplitsAs(cls, s, n, r.value)
  {
    if n > 0 && s != [] && s[0] == '/' && RunLength(cls, s[1..]) > 0 {
      var k := RunLength(cls, s[1..]);
      var t := s[1 + k..];
      var r := Segmented(cls, t, n - 1);
      SegmentedUnfold(cls, s, n, k);
      SegmentedSound(cls, t, n - 1);
      if r.Some? {
        PrefixedSome(s[1..1 + k], r.value.len, r.value.captures);
        SegmentedSoundStep(cls, s, n, k, r.value);
      }
    }
  }

  lemma {:induction false} SegmentedUnfold(cls: CharClass, s: string, n: nat, k: nat)
    requires n > 0 && s != [] && s[0] == '/' && k == RunLength(cls, s[1..]) > 0
    ensures Segmented(cls, s, n) == Prefixed(s[1..1 + k], Segmented(cls, s[1 + k..], n - 1))
  {
  }

  lemma {:induction false} PrefixedSome(part: string, len: nat, captures: seq<string>)
    ensures Prefixed(part, Some(RegexMatch(len, captures))) ==
              Some(RegexMatch(1 + |part| + len, [part] + captures))
  {
  }

  lemma {:induction false} SegmentedSoundStep(cls: CharClass, s: string, n: nat, k: nat, m: RegexMatch)
    requires n > 0 && s != [] && s[0] == '/' && k == RunLength(cls, s[1..]) > 0
    requires SplitsAs(cls, s[1 + k..], n - 1, m)
    ensures SplitsAs(cls, s, n, RegexMatch(1 + k + m.len, [s[1..1 + k]] + m.captures))
  {
    var t := s[1 + k..];
    var caps := [s[1..1 + k]] + m.captures;
    RunLengthMaximal(cls, s[1..]);
    assert caps[1..] == m.captures;
    assert s[..1 + k + m.len] == "/" + s[1..1 + k] + t[..m.len];
    assert IsRun(cls, caps[0]);
    assert forall i :: 1 <= i < n ==> caps[i] == m.captures[i - 1];
    if 1 + k + m.len < |s| {
      if n == 1 {
        assert s[1 + k] == s[1..][k];
      } else {
        assert s[1 + k + m.len] == t[m.len];
      }
    }
  }

  /** Neither class contains the slash. */
  lemma {:induction false} SlashOutsideClasses(cls: CharClass)
    ensures !InClass(cls, '/')
  {
  }

  /** With a slash-led remainder, a shorter run leaves a class character
      where the slash is needed, so every shorter try fails. */
  lemma {:induction false} ShorterRunsFail(cls: CharClass, rest: seq<Atom>, t: string, k: nat)
    requires |rest| > 0 && rest[0] == Lit("/")
    requires k < RunLength(cls, t)
    ensures TryRun(cls, rest, t, k) == None
  {
    if k > 0 {
      assert t[k..][0] == t[k];
      RunLengthMaximal(cls, t);
      SlashOutsideClasses(cls);
      assert !("/" <= t[k..]);
      assert MatchAtoms(rest, t[k..]) == None;
      ShorterRunsFail(cls, rest, t, k - 1);
    }
  }

  lemma {:induction false} MatchLitStep(t: string, rest: seq<Atom>, s: string)
    ensures MatchAtoms([Lit(t)] + rest, s) ==
              if t <= s then Shift(t, [], MatchAtoms(rest, s[|t|..])) else None
  {
    assert ([Lit(t)] + rest)[1..] == rest;
  }

  lemma {:induction false} MatchPlusStep(cls: CharClass, rest: seq<Atom>, s: string)
    ensures MatchAtoms([Plus(cls)] + rest, s) == TryRun(cls, rest, s, RunLength(cls, s))
  {
    assert ([Plus(cls)] + rest)[1..] == rest;
  }

  lemma {:induction false} TryRunStep(cls: CharClass, rest: seq<Atom>, s: string, k: nat)
    requires 0 < k <= |s|
    ensures MatchAtoms(rest, s[k..]).None? ==> TryRun(cls, rest, s, k) == TryRun(cls, rest, s, k - 1)
    ensures MatchAtoms(rest, s[k..]).Some? ==>
              TryRun(cls, rest, s, k) ==
                Some(RegexMatch(k + MatchAtoms(rest, s[k..]).value.len, [s[..k]] + MatchAtoms(rest, s[k..]).value.captures))
  {
  }

  /** Before a slash-led remainder (or nothing), `(cls+)` takes the whole
      run or fails. */
  lemma {:induction false} TryRunTakesWholeRun(cls: CharClass, rest: seq<Atom>, t: string)
    requires rest == [] || rest[0] == Lit("/")
    requires RunLength(cls, t) > 0
    ensures var r := RunLength(cls, t);
            TryRun(cls, rest, t, r) ==
              match MatchAtoms(rest, t[r..])
              case Some(m) => Some(RegexMatch(r + m.len, [t[..r]] + m.captures))
              case None => None
  {
    var r := RunLength(cls, t);
    var m := MatchAtoms(rest, t[r..]);
    if m.None? {
      assert rest != [];
      ShorterRunsFail(cls, rest, t, r - 1);
      TryRunStep(cls, rest, t, r);
    } else {
      TryRunStep(cls, rest, t, r);
    }
  }

  /** The backtracking matcher on `variable`'s pattern (slash-prefixed,
      one class) agrees with the segment description. */
  lemma {:induction false} VariablePatternSegments(cls: CharClass, s: string, n: nat)
    ensures MatchAtoms(Repeat("/", Plus(cls), n), s) == Segmented(cls, s, n)
  {
    if n > 0 {
      if "/" <= s && RunLength(cls, s[1..]) > 0 {
        var t := s[1..];
        VariablePatternSegments(cls, t[RunLength(cls, t)..], n - 1);
        VariablePatternRun(cls, s, n);
      } else {
        VariablePatternNoRun(cls, s, n);
      }
    }
  }

  /** No slash, or no class character after it: both sides fail. */
  lemma {:induction false} VariablePatternNoRun(cls: CharClass, s: string, n: nat)
    requires n > 0 && !("/" <= s && RunLength(cls, s[1..]) > 0)
    ensures MatchAtoms(Repeat("/", Plus(cls), n), s) == None == Segmented(cls, s, n)
  {
    var rest := Repeat("/", Plus(cls), n - 1);
    RepeatUnfold(cls, n);
    MatchLitStep("/", [Plus(cls)] + rest, s);
    if "/" <= s {
      MatchPlusStep(cls, rest, s[1..]);
    }
  }

  /** A slash and a run: the matcher takes the whole run, then the
      remaining segments, exactly as the split does. */
  lemma {:induction false} VariablePatternRun(cls: CharClass, s: string, n: nat)
    requires n > 0 && "/" <= s && RunLength(cls, s[1..]) > 0
    requires var t := s[1..];
             var r := RunLength(cls, t);
             MatchAtoms(Repeat("/", Plus(cls), n - 1), t[r..]) == Segmented(cls, t[r..], n - 1)
    ensures MatchAtoms(Repeat("/", Plus(cls), n), s) == Segmented(cls, s, n)
  {
    var t := s[1..];
    var r := RunLength(cls, t);
    var m := MatchAtoms(Repeat("/", Plus(cls), n - 1), t[r..]);
    VariablePatternHead(cls, s, n);
    assert |t[..r]| == r;
    ShiftCaptured(t[..r], m);
    assert MatchAtoms(Repeat("/", Plus(cls), n), s) == Prefixed(t[..r], m);
    SegmentedStep(cls, s, n);
  }

  /** The slash, then `(cls+)` taking its whole run. */
  lemma {:induction false} VariablePatternHead(cls: CharClass, s: string, n: nat)
    requires n > 0 && "/" <= s && RunLength(cls, s[1..]) > 0
    ensures var t := s[1..];
            var r := RunLength(cls, t);
            MatchAtoms(Repeat("/", Plus(cls), n), s) ==
              Shift("/", [], match MatchAtoms(Repeat("/", Plus(cls), n - 1), t[r..])
                             case Some(x) => Some(RegexMatch(r + x.len, [t[..r]] + x.captures))
                             case None => None)
  {
    var rest := Repeat("/", Plus(cls), n - 1);
    var t := s[1..];
    RepeatUnfold(cls, n);
    MatchLitStep("/", [Plus(cls)] + rest, s);
    assert s[|"/"|..] == t;
    MatchPlusStep(cls, rest, t);
    TryRunTakesWholeRun(cls, rest, t);
  }

  lemma {:induction false} RepeatUnfold(cls: CharClass, n: nat)
    requires n > 0
    ensures Repeat("/", Plus(cls), n) == [Lit("/")] + ([Plus(cls)] + Repeat("/", Plus(cls), n - 1))
  {
  }

  /** One segment of the split, in terms of the text after the slash. */
  lemma {:induction false} SegmentedStep(cls: CharClass, s: string, n: nat)
    requires n > 0 && "/" <= s && RunLength(cls, s[1..]) > 0
    ensures var t := s[1..];
            var r := RunLength(cls, t);
            Segmented(cls, s, n) == Prefixed(t[..r], Segmented(cls, t[r..], n - 1))
  {
    var r := RunLength(cls, s[1..]);
    assert s[1..][r..] == s[1 + r..];
    assert s[1..][..r] == s[1..1 + r];
  }

  lemma {:induction false} ShiftCaptured(part: string, r: Option<RegexMatch>)
    ensures Shift("/", [], match r
                           case Some(m) => Some(RegexMatch(|part| + m.len, [part] + m.captures))
                           case None => None)
            == Prefixed(part, r)
  {
    match r
    case Some(m) =>
      assert [] + ([part] + m.captures) == [part] + m.captures;
    case None =>
  }

  /** Conversely, text made of n maximal runs, each after a slash, is
      split into exactly those runs. */
  lemma {:induction false} SegmentedComplete(cls: CharClass, parts: seq<string>, rest: string)
    requires forall i :: 0 <= i < |parts| ==> IsRun(cls, parts[i])
    requires rest == "" || !InClass(cls, rest[0])
    ensures Segmented(cls, SlashJoin(parts) + rest, |parts|) ==
              Some(RegexMatch(|SlashJoin(parts)|, parts))
  {
    if parts != [] {
      SegmentedCompleteTail(cls, parts);
      SegmentedComplete(cls, parts[1..], rest);
      SegmentedCompleteStep(cls, parts, rest);
    }
  }

  lemma {:induction false} SegmentedCompleteStep(cls: CharClass, parts: seq<string>, rest: string)
    requires parts != [] && IsRun(cls, parts[0])
    requires rest == "" || !InClass(cls, rest[0])
    requires Segmented(cls, SlashJoin(parts[1..]) + rest, |parts| - 1) ==
               Some(RegexMatch(|SlashJoin(parts[1..])|, parts[1..]))
    ensures Segmented(cls, SlashJoin(parts) + rest, |parts|) ==
              Some(RegexMatch(|SlashJoin(parts)|, parts))
  {
    SegmentedPeel(cls, parts, rest);
    PrefixedRejoin(parts);
  }

  /** The first run of a joined text comes off the front of the split. */
  lemma {:induction false} SegmentedPeel(cls: CharClass, parts: seq<string>, rest: string)
    requires parts != [] && IsRun(cls, parts[0])
    requires rest == "" || !InClass(cls, rest[0])
    ensures Segmented(cls, SlashJoin(parts) + rest, |parts|) ==
              Prefixed(parts[0], Segmented(cls, SlashJoin(parts[1..]) + rest, |parts| - 1))
  {
    var tail := SlashJoin(parts[1..]) + rest;
    FollowedByNonClass(cls, parts[1..], rest);
    SlashJoinCons(parts, rest);
    SegmentedHead(cls, parts[0], tail, |parts|, SlashJoin(parts) + rest);
  }

  lemma {:induction false} PrefixedRejoin(parts: seq<string>)
    requires parts != []
    ensures Prefixed(parts[0], Some(RegexMatch(|SlashJoin(parts[1..])|, parts[1..]))) ==
              Some(RegexMatch(|SlashJoin(parts)|, parts))
  {
    PrefixedSome(parts[0], |SlashJoin(parts[1..])|, parts[1..]);
    SlashJoinLength(parts);
    HeadAndTail(parts);
  }

  lemma {:induction false} SegmentedCompleteTail(cls: CharClass, parts: seq<string>)
    requires parts != []
    requires forall i :: 0 <= i < |parts| ==> IsRun(cls, parts[i])
    ensures IsRun(cls, parts[0])
    ensures forall i :: 0 <= i < |parts[1..]| ==> IsRun(cls, parts[1..][i])
  {
  }

  lemma {:induction false} SlashJoinCons(parts: seq<string>, rest: string)
    requires parts != []
    ensures SlashJoin(parts) + rest == "/" + parts[0] + (SlashJoin(parts[1..]) + rest)
  {
  }

  lemma {:induction false} SlashJoinLength(parts: seq<string>)
    requires parts != []
    ensures |SlashJoin(parts)| == 1 + |parts[0]| + |SlashJoin(parts[1..])|
  {
  }

  lemma {:induction false} HeadAndTail<T>(xs: seq<T>)
    requires xs != []
    ensures [xs[0]] + xs[1..] == xs
  {
  }

  lemma {:induction false} FollowedByNonClass(cls: CharClass, parts: seq<string>, rest: string)
    requires rest == "" || !InClass(cls, rest[0])
    ensures var tail := SlashJoin(parts) + rest; tail == "" || !InClass(cls, tail[0])
  {
    SlashOutsideClasses(cls);
    if parts != [] {
      assert (SlashJoin(parts) + rest)[0] == '/';
    }
  }

  /** One step of the split: a full run after the leading slash. */
  lemma {:induction false} SegmentedHead(cls: CharClass, head: string, tail: string, n: nat, s: string)
    requires IsRun(cls, head)
    requires tail == "" || !InClass(cls, tail[0])
    requires n > 0 && s == "/" + head + tail
    ensures Segmented(cls, s, n) == Prefixed(head, Segmented(cls, tail, n - 1))
  {
    assert s[1..] == head + tail;
    RunOfExactly(cls, head, tail);
    var k := |head|;
    assert s[1..1 + k] == head;
    assert s[1 + k..] == tail;
  }

  lemma {:induction false} RunOfExactly(cls: CharClass, run: string, after: string)
    requires forall k :: 0 <= k < |run| ==> InClass(cls, run[k])
    requires after == "" || !InClass(cls, after[0])
    ensures RunLength(cls, run + after) == |run|
  {
    if run != [] {
      assert (run + after)[1..] == run[1..] + after;
      RunOfExactly(cls, run[1..], after);
    }
  }
}

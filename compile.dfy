/**
 * The configuration compiler (internal/compile/build.go): `Build` turns a decoded
 * configuration into the immutable snapshot the server answers from, and `compilePath`
 * turns a `:param` path template into an anchored pattern and its parameter names.
 * The functions here are the specification; `CompilePath`, `CompileScenarioList` and
 * `Build` are the source's loops, proved equal to them.
 */
module Compile {
  import opened Wrappers
  import opened Text
  import opened Json
  import opened Config
  import opened Pattern
  import opened Snapshot

  /**
   * The library services `Build` relies on: compiling a JSON Schema (`Some(message)` when the
   * schema does not compile) and `json.Marshal` of a body.
   */
  datatype Tools = Tools(schemaError: string -> Option<string>, marshal: Value -> string)

  // ---------------------------------------------------------------------------------------
  // ifZero / ifEmpty

  /** `ifZero(v, alt)`: keeps any non-zero value, a zero becomes `alt`. */
  function IfZero(v: int, alt: int): (r: int)
    ensures v != 0 ==> r == v
    ensures v == 0 ==> r == alt
    ensures alt != 0 ==> r != 0
  {
    if v == 0 then alt else v
  }

  /** `ifEmpty(v, alt)`: keeps text that is not blank after trimming, otherwise `alt`. */
  function IfEmpty(v: string, alt: string): (r: string)
    ensures !IsBlank(v) ==> r == v
    ensures IsBlank(v) ==> r == alt
    ensures !IsBlank(alt) ==> !IsBlank(r)
  {
    if IsBlank(v) then alt else v
  }

  // ---------------------------------------------------------------------------------------
  // compilePath

  /** The `/`-separated parts of a template once one leading `/` is dropped. */
  function PathParts(tpl: string): (parts: seq<string>)
    ensures |parts| >= 1
    ensures forall i :: 0 <= i < |parts| ==> '/' !in parts[i]
  {
    Split(TrimPrefix(tpl, "/"), '/')
  }

  predicate IsParam(part: string) {
    HasPrefix(part, ":")
  }

  function SegmentOf(part: string): Segment {
    if IsParam(part) then Param else Lit(part)
  }

  /** One segment per part: a `:`-part is a capture, anything else the literal part. */
  function Segments(parts: seq<string>): seq<Segment>
    decreases |parts|
  {
    if parts == [] then [] else Segments(parts[..|parts| - 1]) + [SegmentOf(parts[|parts| - 1])]
  }

  /** The `:`-parts without their colon, in order. */
  function Names(parts: seq<string>): seq<string>
    decreases |parts|
  {
    if parts == [] then []
    else
      var last := parts[|parts| - 1];
      Names(parts[..|parts| - 1]) + (if IsParam(last) then [last[1..]] else [])
  }

  /** `regexp.QuoteMeta`: a backslash before each of the characters `\.+*?()|[]{}^$`. */
  function QuoteMeta(s: string): string
    decreases |s|
  {
    if s == [] then []
    else (if s[0] in "\\.+*?()|[]{}^$" then ['\\', s[0]] else [s[0]]) + QuoteMeta(s[1..])
  }

  /** The regex text written for one part. */
  function PieceSource(part: string): string {
    if IsParam(part) then "([^/]+)" else QuoteMeta(part)
  }

  function Sources(parts: seq<string>): seq<string>
    decreases |parts|
  {
    if parts == [] then [] else Sources(parts[..|parts| - 1]) + [PieceSource(parts[|parts| - 1])]
  }

  /** The source text of `PathRE`: `^/`, the parts' regex text joined by `/`, then `$`. */
  function RegexSource(tpl: string): string {
    "^/" + Join(Sources(PathParts(tpl)), '/') + "$"
  }

  /** The pattern the compiled `PathRE` stands for. */
  function PatternOf(tpl: string): seq<Segment> {
    Segments(PathParts(tpl))
  }

  /** `names` of `compilePath`. */
  function ParamNamesOf(tpl: string): seq<string> {
    Names(PathParts(tpl))
  }

  lemma {:induction false} SegmentsShape(parts: seq<string>)
    ensures |Segments(parts)| == |parts| && |Sources(parts)| == |parts|
    ensures forall i :: 0 <= i < |parts| ==> Segments(parts)[i] == SegmentOf(parts[i])
    ensures ParamCount(Segments(parts)) == |Names(parts)|
    decreases |parts|
  {
    if parts != [] {
      var init := parts[..|parts| - 1];
      SegmentsShape(init);
      ParamCountAppend(Segments(init), [SegmentOf(parts[|parts| - 1])]);
      assert ParamCount([SegmentOf(parts[|parts| - 1])]) == if IsParam(parts[|parts| - 1]) then 1 else 0;
    }
  }

  /**
   * Names line up with captures: the `:`-part at position `i` is preceded by as many captures
   * as there are names before it, so its name sits at exactly that index of `Names(parts)`.
   */
  lemma {:induction false} NamesAligned(parts: seq<string>)
    ensures forall i :: 0 <= i < |parts| && IsParam(parts[i]) ==>
              ParamCount(Segments(parts[..i])) < |Names(parts)|
              && Names(parts)[ParamCount(Segments(parts[..i]))] == parts[i][1..]
    decreases |parts|
  {
    if parts != [] {
      var n := |parts| - 1;
      var init := parts[..n];
      NamesAligned(init);
      SegmentsShape(init);
      forall i | 0 <= i < |parts| && IsParam(parts[i])
        ensures ParamCount(Segments(parts[..i])) < |Names(parts)|
        ensures Names(parts)[ParamCount(Segments(parts[..i]))] == parts[i][1..]
      {
        if i < n {
          assert parts[..i] == init[..i] && init[i] == parts[i];
        } else {
          assert parts[..i] == init;
        }
      }
    }
  }

  /** The prefix of a template's segments is the segments of the prefix of its parts. */
  lemma SegmentsPrefix(parts: seq<string>, i: nat)
    requires i <= |parts|
    ensures |Segments(parts)| == |parts| && Segments(parts)[..i] == Segments(parts[..i])
  {
    SegmentsShape(parts);
    SegmentsShape(parts[..i]);
  }

  /**
   * The compiled pattern can be matched segment by segment: it has at least one segment, no
   * literal contains `/`, and it has exactly one capture per parameter name. Its regex text
   * has exactly one piece per part.
   */
  lemma CompiledPattern(tpl: string)
    ensures WellFormed(PatternOf(tpl))
    ensures ParamCount(PatternOf(tpl)) == |ParamNamesOf(tpl)|
    ensures |Sources(PathParts(tpl))| == |PatternOf(tpl)|
    ensures |PatternOf(tpl)| == |PathParts(tpl)|
    ensures forall i :: 0 <= i < |PatternOf(tpl)| ==> (PatternOf(tpl)[i].Param? <==> IsParam(PathParts(tpl)[i]))
    ensures forall i :: 0 <= i < |PathParts(tpl)| && IsParam(PathParts(tpl)[i]) ==>
              ParamCount(PatternOf(tpl)[..i]) < |ParamNamesOf(tpl)|
              && ParamNamesOf(tpl)[ParamCount(PatternOf(tpl)[..i])] == PathParts(tpl)[i][1..]
  {
    var parts := PathParts(tpl);
    SegmentsShape(parts);
    NamesAligned(parts);
    forall i | 0 <= i < |parts| ensures PatternOf(tpl)[..i] == Segments(parts[..i]) {
      SegmentsPrefix(parts, i);
    }
    forall i | 0 <= i < |parts| && PatternOf(tpl)[i].Lit?
      ensures '/' !in PatternOf(tpl)[i].text
    {
      assert PatternOf(tpl)[i] == SegmentOf(parts[i]);
    }
  }

  /**
   * A template without parameters that starts with `/` matches exactly its own text, with no
   * captures.
   */
  lemma LiteralTemplateMatchesItself(tpl: string)
    requires HasPrefix(tpl, "/")
    requires forall i :: 0 <= i < |PathParts(tpl)| ==> !IsParam(PathParts(tpl)[i])
    ensures Match(PatternOf(tpl), tpl) == Some([])
  {
    var parts := PathParts(tpl);
    var segs := PatternOf(tpl);
    CompiledPattern(tpl);
    SegmentsShape(parts);
    assert ParamCount(segs) == 0 by {
      NoParamNames(parts);
    }
    var filled := Fill(segs, []);
    assert filled == parts by {
      FillLiterals(segs, parts);
    }
    SplitJoin(TrimPrefix(tpl, "/"), '/');
    MatchFill(segs, []);
    assert "/" + Join(filled, '/') == tpl;
  }

  lemma {:induction false} NoParamNames(parts: seq<string>)
    requires forall i :: 0 <= i < |parts| ==> !IsParam(parts[i])
    ensures Names(parts) == []
    decreases |parts|
  {
    if parts != [] {
      NoParamNames(parts[..|parts| - 1]);
    }
  }

  lemma {:induction false} FillLiterals(segs: seq<Segment>, parts: seq<string>)
    requires |segs| == |parts|
    requires forall i :: 0 <= i < |segs| ==> segs[i] == Lit(parts[i])
    ensures ParamCount(segs) == 0
    ensures Fill(segs, []) == parts
    decreases |segs|
  {
    if segs != [] {
      FillLiterals(segs[1..], parts[1..]);
      assert parts == [parts[0]] + parts[1..];
    }
  }

  /** The builder's text once the first `k` parts are written. */
  function Written(parts: seq<string>, k: nat): string
    requires k <= |parts|
  {
    if k == 0 then "^/" else "^/" + Join(Sources(parts[..k]), '/') + (if k < |parts| then "/" else "")
  }

  /** Extending the prefix `parts[..i]` by one part extends each list by that part's entry. */
  lemma PrefixStep(parts: seq<string>, i: nat)
    requires i < |parts|
    ensures Segments(parts[..i + 1]) == Segments(parts[..i]) + [SegmentOf(parts[i])]
    ensures Names(parts[..i + 1]) == Names(parts[..i]) + (if IsParam(parts[i]) then [parts[i][1..]] else [])
    ensures Sources(parts[..i + 1]) == Sources(parts[..i]) + [PieceSource(parts[i])]
  {
    assert parts[..i + 1][..i] == parts[..i];
  }

  lemma {:induction false} SourcesLength(parts: seq<string>)
    ensures |Sources(parts)| == |parts|
    decreases |parts|
  {
    if parts != [] {
      SourcesLength(parts[..|parts| - 1]);
    }
  }

  lemma WrittenStep(parts: seq<string>, i: nat)
    requires i < |parts|
    ensures Written(parts, i + 1) == Written(parts, i) + PieceSource(parts[i]) + (if i < |parts| - 1 then "/" else "")
  {
    PrefixStep(parts, i);
    var srcs := Sources(parts[..i + 1]);
    var piece := PieceSource(parts[i]);
    var t := if i < |parts| - 1 then "/" else "";
    assert Written(parts, i + 1) == "^/" + Join(srcs, '/') + t;
    if i > 0 {
      SourcesLength(parts[..i]);
      var joined := Join(Sources(parts[..i]), '/');
      assert Written(parts, i) == "^/" + joined + "/";
      assert srcs[..i] == Sources(parts[..i]) && srcs[i] == piece && srcs[..i + 1] == srcs;
      JoinSnoc(srcs, '/', i);
      assert Join(srcs, '/') == joined + "/" + piece;
    } else {
      assert parts[..0] == [];
      assert srcs == [piece];
      assert Join(srcs, '/') == piece;
    }
  }

  lemma WrittenEnd(tpl: string)
    ensures Written(PathParts(tpl), |PathParts(tpl)|) + "$" == RegexSource(tpl)
  {
    var parts := PathParts(tpl);
    assert parts[..|parts|] == parts;
  }

  /**
   * `compilePath`: writes the regex text part by part (a `/` after every part but the last),
   * collects the names, and records the segment list the regex stands for.
   */
  method CompilePath(tpl: string) returns (src: string, segs: seq<Segment>, names: seq<string>)
    ensures src == RegexSource(tpl)
    ensures segs == PatternOf(tpl)
    ensures names == ParamNamesOf(tpl)
  {
    var trim := TrimPrefix(tpl, "/");
    var parts := Split(trim, '/');
    names := [];
    segs := [];
    var b := "^/";
    for i := 0 to |parts|
      invariant names == Names(parts[..i])
      invariant segs == Segments(parts[..i])
      invariant b == Written(parts, i)
    {
      var p := parts[i];
      PrefixStep(parts, i);
      WrittenStep(parts, i);
      if HasPrefix(p, ":") {
        names := names + [p[1..]];
        segs := segs + [Param];
        b := b + "([^/]+)";
      } else {
        segs := segs + [Lit(p)];
        b := b + QuoteMeta(p);
      }
      if i < |parts| - 1 {
        b := b + "/";
      }
    }
    assert parts[..|parts|] == parts;
    WrittenEnd(tpl);
    b := b + "$";
    src := b;
  }

  lemma WidgetsParts()
    ensures PathParts("/widgets/:id") == ["widgets", ":id"]
  {
    assert TrimPrefix("/widgets/:id", "/") == "widgets/:id";
    assert Join(["widgets", ":id"], '/') == "widgets/:id";
    JoinSplit(["widgets", ":id"], '/');
  }

  lemma WidgetsSegments()
    ensures Segments(["widgets", ":id"]) == [Lit("widgets"), Param]
    ensures Names(["widgets", ":id"]) == ["id"]
  {
    var parts := ["widgets", ":id"];
    assert parts[..1] == ["widgets"] && parts[..1][..0] == [];
    assert IsParam(":id") && ":id"[1..] == "id";
    assert "widgets"[..1] == "w";
    assert !IsParam("widgets");
  }

  /** `/widgets/:id` compiles to the literal `widgets` followed by one capture named `id`. */
  lemma WidgetsCompiles()
    ensures PatternOf("/widgets/:id") == [Lit("widgets"), Param]
    ensures ParamNamesOf("/widgets/:id") == ["id"]
  {
    WidgetsParts();
    WidgetsSegments();
  }

  lemma WidgetsPaths()
    ensures Split("/widgets/42"[1..], '/') == ["widgets", "42"]
    ensures Split("/widgets/42/"[1..], '/') == ["widgets", "42", ""]
    ensures Split("/widgets"[1..], '/') == ["widgets"]
  {
    assert "/widgets/42"[1..] == "widgets/42" == Join(["widgets", "42"], '/');
    JoinSplit(["widgets", "42"], '/');
    assert "/widgets/42/"[1..] == "widgets/42/" == Join(["widgets", "42", ""], '/');
    JoinSplit(["widgets", "42", ""], '/');
    assert "/widgets"[1..] == "widgets" == Join(["widgets"], '/');
    JoinSplit(["widgets"], '/');
  }

  lemma WidgetsPieces()
    ensures MatchPieces([Lit("widgets"), Param], ["widgets", "42"]) == Some(["42"])
    ensures MatchPieces([Lit("widgets"), Param], ["widgets", "42", ""]) == None
    ensures MatchPieces([Lit("widgets"), Param], ["widgets"]) == None
  {
    var segs: seq<Segment> := [Lit("widgets"), Param];
    var one: seq<Segment> := [Param];
    assert segs[1..] == one && one[1..] == [];
    var p2: seq<string> := ["widgets", "42"];
    var p3: seq<string> := ["widgets", "42", ""];
    var p1: seq<string> := ["widgets"];
    assert p2[1..] == ["42"] && p2[1..][1..] == [] && p2[1..][0] != "";
    assert ["42"] + [] == ["42"];
    assert MatchPieces(one, ["42"]) == Some(["42"]);
    assert p3[1..] == ["42", ""] && p3[1..][1..] == [""];
    assert MatchPieces(one, ["42", ""]) == None;
    assert p1[1..] == [];
    assert MatchPieces(one, []) == None;
  }

  /**
   * The compiled `/widgets/:id` matches `/widgets/42` capturing `42`, and matches neither
   * `/widgets/42/` (trailing slashes are not normalised) nor `/widgets`.
   */
  lemma WidgetsMatches()
    ensures Match(PatternOf("/widgets/:id"), "/widgets/42") == Some(["42"])
    ensures Match(PatternOf("/widgets/:id"), "/widgets/42/") == None
    ensures Match(PatternOf("/widgets/:id"), "/widgets") == None
  {
    WidgetsCompiles();
    WidgetsPaths();
    WidgetsPieces();
  }

  // ---------------------------------------------------------------------------------------
  // Scenarios and the default

  /**
   * One configured scenario: weight 0 becomes 1 and priority 0 becomes 100 (every other value,
   * negative ones included, is kept); the body is serialised; `BodyIsBase64` records whether
   * `body_base64` was given; everything else is carried over.
   */
  function CompileScenario(sc: ScenarioCfg, marshal: Value -> string): (c: CompiledScenario)
    ensures sc.weight == 0 ==> c.weight == 1
    ensures sc.weight != 0 ==> c.weight == sc.weight
    ensures sc.priority == 0 ==> c.priority == 100
    ensures sc.priority != 0 ==> c.priority == sc.priority
    ensures c.weight != 0 && c.priority != 0
    ensures c.bodyIsBase64 <==> sc.bodyBase64 != ""
    ensures c.bodyBytes == marshal(sc.body)
    ensures c.name == sc.name && c.matchRules == sc.matchRules && c.status == sc.status
    ensures c.headers == sc.headers && c.latencyMs == sc.latencyMs && c.errorRatePct == sc.errorRatePct
  {
    CompiledScenario(
      sc.name, IfZero(sc.priority, 100), sc.matchRules, sc.status, sc.headers,
      marshal(sc.body), sc.bodyBase64 != "", sc.latencyMs, sc.errorRatePct, IfZero(sc.weight, 1))
  }

  function CompileScenarios(scs: seq<ScenarioCfg>, marshal: Value -> string): seq<CompiledScenario>
    decreases |scs|
  {
    if scs == [] then []
    else CompileScenarios(scs[..|scs| - 1], marshal) + [CompileScenario(scs[|scs| - 1], marshal)]
  }

  lemma {:induction false} CompileScenariosShape(scs: seq<ScenarioCfg>, marshal: Value -> string)
    ensures |CompileScenarios(scs, marshal)| == |scs|
    ensures forall i :: 0 <= i < |scs| ==> CompileScenarios(scs, marshal)[i] == CompileScenario(scs[i], marshal)
    decreases |scs|
  {
    if scs != [] {
      CompileScenariosShape(scs[..|scs| - 1], marshal);
    }
  }

  /** The scenario loop of `Build`, appending one compiled scenario per configured one. */
  method CompileScenarioList(scs: seq<ScenarioCfg>, marshal: Value -> string) returns (out: seq<CompiledScenario>)
    ensures out == CompileScenarios(scs, marshal)
  {
    out := [];
    for i := 0 to |scs|
      invariant out == CompileScenarios(scs[..i], marshal)
    {
      var sc := scs[i];
      if sc.weight == 0 {
        sc := sc.(weight := 1);
      }
      if sc.priority == 0 {
        sc := sc.(priority := 100);
      }
      assert scs[..i + 1][..i] == scs[..i];
      out := out + [CompiledScenario(
        sc.name, sc.priority, sc.matchRules, sc.status, sc.headers,
        marshal(sc.body), sc.bodyBase64 != "", sc.latencyMs, sc.errorRatePct, sc.weight)];
    }
    assert scs[..|scs|] == scs;
  }

  /**
   * A configured default: a blank name becomes `default`, a zero status becomes 200, the
   * priority is 999999, and it never carries match rules, an error rate, a weight or the
   * base64 flag.
   */
  function CompileDefault(d: ScenarioCfg, marshal: Value -> string): (c: CompiledScenario)
    ensures c.name == IfEmpty(d.name, "default") && !IsBlank(c.name)
    ensures c.status == IfZero(d.status, 200) && c.status != 0
    ensures c.priority == 999999 && c.matchRules == None
    ensures c.errorRatePct == 0 && c.weight == 0 && !c.bodyIsBase64
    ensures c.headers == d.headers && c.latencyMs == d.latencyMs && c.bodyBytes == marshal(d.body)
  {
    assert !IsBlank("default") by { assert !IsSpace("default"[0]); }
    CompiledScenario(
      IfEmpty(d.name, "default"), 999999, None, IfZero(d.status, 200), d.headers,
      marshal(d.body), false, d.latencyMs, 0, 0)
  }

  // ---------------------------------------------------------------------------------------
  // Routes

  /** The request schema text to compile: present and not blank after trimming. */
  function RequestSchema(rc: RouteCfg): Option<string> {
    if rc.schemas.Some? && !IsBlank(rc.schemas.value.requestJsonSchema) then
      Some(rc.schemas.value.requestJsonSchema)
    else None
  }

  /** The message `fmt.Errorf("compile jsonschema for %s %s: %w", …)` produces. */
  function SchemaMessage(rc: RouteCfg, err: string): string {
    "compile jsonschema for " + rc.httpMethod + " " + rc.pathTemplate + ": " + err
  }

  function DefaultOf(d: Option<ScenarioCfg>, marshal: Value -> string): Option<CompiledScenario> {
    if d.Some? then Some(CompileDefault(d.value, marshal)) else None
  }

  /** One route: the compiled route, or the schema error that aborts the whole build. */
  function CompileRoute(rc: RouteCfg, tools: Tools): Result<CompiledRoute, string> {
    var schema := RequestSchema(rc);
    if schema.Some? && tools.schemaError(schema.value).Some? then
      Failure(SchemaMessage(rc, tools.schemaError(schema.value).value))
    else
      Success(CompiledRoute(
        Upper(rc.httpMethod), rc.pathTemplate,
        PatternOf(rc.pathTemplate), ParamNamesOf(rc.pathTemplate),
        rc.strict, schema,
        CompileScenarios(rc.scenarios, tools.marshal),
        DefaultOf(rc.defaultScenario, tools.marshal)))
  }

  /**
   * A route compiles unless it has a non-blank request schema that fails to compile; then the
   * message names the configured method and template. A compiled route has the upper-cased
   * method, the template verbatim, the pattern and names of `compilePath`, one compiled
   * scenario per configured one in order, and the configured default only in `Default`.
   */
  lemma CompileRouteSpec(rc: RouteCfg, tools: Tools)
    ensures CompileRoute(rc, tools).Failure? <==>
              RequestSchema(rc).Some? && tools.schemaError(RequestSchema(rc).value).Some?
    ensures CompileRoute(rc, tools).Failure? ==>
              HasPrefix(CompileRoute(rc, tools).error,
                        "compile jsonschema for " + rc.httpMethod + " " + rc.pathTemplate + ": ")
    ensures CompileRoute(rc, tools).Success? ==>
              var cr := CompileRoute(rc, tools).value;
              && cr.httpMethod == Upper(rc.httpMethod)
              && cr.pathTemplate == rc.pathTemplate
              && cr.pathPattern == PatternOf(rc.pathTemplate)
              && cr.paramNames == ParamNamesOf(rc.pathTemplate)
              && ParamCount(cr.pathPattern) == |cr.paramNames|
              && cr.strict == rc.strict
              && cr.reqSchema == RequestSchema(rc)
              && |cr.scenarios| == |rc.scenarios|
              && (forall i :: 0 <= i < |rc.scenarios| ==>
                    cr.scenarios[i] == CompileScenario(rc.scenarios[i], tools.marshal))
              && (cr.defaultScenario.Some? <==> rc.defaultScenario.Some?)
              && (rc.defaultScenario.Some? ==>
                    cr.defaultScenario.value == CompileDefault(rc.defaultScenario.value, tools.marshal))
  {
    CompileScenariosShape(rc.scenarios, tools.marshal);
    CompiledPattern(rc.pathTemplate);
    if CompileRoute(rc, tools).Failure? {
      var e := tools.schemaError(RequestSchema(rc).value).value;
      var pre := "compile jsonschema for " + rc.httpMethod + " " + rc.pathTemplate + ": ";
      assert SchemaMessage(rc, e) == pre + e;
      assert (pre + e)[..|pre|] == pre;
    }
  }

  /** Every route in order; the first route that fails aborts with its error. */
  function CompileRoutes(rcs: seq<RouteCfg>, tools: Tools): Result<seq<CompiledRoute>, string>
    decreases |rcs|
  {
    if rcs == [] then Success([])
    else
      match CompileRoute(rcs[0], tools)
      case Failure(e) => Failure(e)
      case Success(cr) =>
        match CompileRoutes(rcs[1..], tools)
        case Failure(e) => Failure(e)
        case Success(rest) => Success([cr] + rest)
  }

  /**
   * Success exactly when every route compiles; then one compiled route per configured route,
   * in the same order.
   */
  lemma {:induction false} CompileRoutesSuccess(rcs: seq<RouteCfg>, tools: Tools)
    ensures CompileRoutes(rcs, tools).Success? <==> forall i :: 0 <= i < |rcs| ==> CompileRoute(rcs[i], tools).Success?
    ensures CompileRoutes(rcs, tools).Success? ==>
              |CompileRoutes(rcs, tools).value| == |rcs|
              && forall i :: 0 <= i < |rcs| ==> CompileRoutes(rcs, tools).value[i] == CompileRoute(rcs[i], tools).value
    decreases |rcs|
  {
    if rcs != [] {
      var tail := rcs[1..];
      CompileRoutesSuccess(tail, tools);
      assert forall i :: 1 <= i < |rcs| ==> rcs[i] == tail[i - 1];
      var head := CompileRoute(rcs[0], tools);
      var rest := CompileRoutes(tail, tools);
      if head.Success? && rest.Success? {
        var r := [head.value] + rest.value;
        assert CompileRoutes(rcs, tools) == Success(r);
        assert forall i :: 1 <= i < |r| ==> r[i] == rest.value[i - 1];
      }
    }
  }

  /** A failure is the error of the first route that fails; every route before it compiles. */
  lemma {:induction false} CompileRoutesFailure(rcs: seq<RouteCfg>, tools: Tools) returns (k: nat)
    requires CompileRoutes(rcs, tools).Failure?
    ensures k < |rcs| && CompileRoute(rcs[k], tools).Failure?
    ensures CompileRoutes(rcs, tools).error == CompileRoute(rcs[k], tools).error
    ensures forall j :: 0 <= j < k ==> CompileRoute(rcs[j], tools).Success?
    decreases |rcs|
  {
    if CompileRoute(rcs[0], tools).Failure? {
      k := 0;
    } else {
      var k' := CompileRoutesFailure(rcs[1..], tools);
      k := k' + 1;
      assert forall j :: 1 <= j < |rcs| ==> rcs[j] == rcs[1..][j - 1];
    }
  }

  // ---------------------------------------------------------------------------------------
  // Build

  /** An empty project name becomes `demo`. */
  function DefaultProject(p: string): (r: string)
    ensures p == "" ==> r == "demo"
    ensures p != "" ==> r == p
    ensures r != ""
  {
    if p == "" then "demo" else p
  }

  /** The snapshot's rate: `requests_per_minute` when configured and positive, otherwise 0. */
  function RateOf(rl: Option<RateLimitCfg>): (rpm: int)
    ensures rpm >= 0
    ensures rpm > 0 <==> rl.Some? && rl.value.requestsPerMinute > 0
    ensures rpm > 0 ==> rpm == rl.value.requestsPerMinute
  {
    if rl.Some? && rl.value.requestsPerMinute > 0 then rl.value.requestsPerMinute else 0
  }

  /** `Build` as a value: the snapshot, or the first route's schema error. */
  function CompileConfig(cfg: Config, tools: Tools): Result<Snapshot, string> {
    match CompileRoutes(cfg.routes, tools)
    case Failure(e) => Failure(e)
    case Success(routes) =>
      Success(Snapshot(DefaultProject(cfg.project), cfg.env, {cfg.apiKey}, RateOf(cfg.rateLimit), routes))
  }

  /**
   * What a build produces: it succeeds exactly when every route compiles; then the project is
   * the configured one or `demo`, never empty; the environment is the configured one;
   * the only accepted API key is the configured one (possibly empty); the rate is the
   * positive configured rate or 0; and there is one compiled route per configured route, in
   * order. A failure is the first failing route's schema error.
   */
  lemma CompileConfigSpec(cfg: Config, tools: Tools)
    ensures CompileConfig(cfg, tools).Success? <==>
              forall i :: 0 <= i < |cfg.routes| ==> CompileRoute(cfg.routes[i], tools).Success?
    ensures CompileConfig(cfg, tools).Success? ==>
              var snap := CompileConfig(cfg, tools).value;
              && snap.project == DefaultProject(cfg.project) && snap.project != ""
              && snap.env == cfg.env
              && snap.apiKeys == {cfg.apiKey}
              && snap.rateLimit == RateOf(cfg.rateLimit)
              && |snap.routes| == |cfg.routes|
              && (forall i :: 0 <= i < |cfg.routes| ==> snap.routes[i] == CompileRoute(cfg.routes[i], tools).value)
    ensures CompileConfig(cfg, tools).Failure? ==>
              exists k :: 0 <= k < |cfg.routes| && CompileRoute(cfg.routes[k], tools).Failure?
                && CompileConfig(cfg, tools).error == CompileRoute(cfg.routes[k], tools).error
                && forall j :: 0 <= j < k ==> CompileRoute(cfg.routes[j], tools).Success?
  {
    CompileRoutesSuccess(cfg.routes, tools);
    if CompileConfig(cfg, tools).Failure? {
      var k := CompileRoutesFailure(cfg.routes, tools);
    }
  }

  /**
   * Building again from the configuration `Build` wrote back gives the same result, so the
   * write-back of the default project is harmless to a later import of the same document.
   */
  lemma RebuildSame(cfg: Config, tools: Tools)
    ensures CompileConfig(cfg.(project := DefaultProject(cfg.project)), tools) == CompileConfig(cfg, tools)
  {
  }

  /** The caller's configuration, which `Build` updates in place. */
  class ConfigDoc {
    var cfg: Config

    constructor(cfg: Config)
      ensures this.cfg == cfg
    {
      this.cfg := cfg;
    }
  }

  /** `Prefixed(done, r)`: the routes compiled so far in front of the outcome for the rest. */
  function Prefixed(done: seq<CompiledRoute>, r: Result<seq<CompiledRoute>, string>): Result<seq<CompiledRoute>, string> {
    match r
    case Failure(e) => Failure(e)
    case Success(rest) => Success(done + rest)
  }

  lemma CompileRoutesStep(rcs: seq<RouteCfg>, i: nat, tools: Tools)
    requires i < |rcs|
    ensures CompileRoutes(rcs[i..], tools) ==
              match CompileRoute(rcs[i], tools)
              case Failure(e) => Failure(e)
              case Success(cr) => Prefixed([cr], CompileRoutes(rcs[i + 1..], tools))
  {
    assert rcs[i..][0] == rcs[i] && rcs[i..][1..] == rcs[i + 1..];
  }

  lemma PrefixedAppend(done: seq<CompiledRoute>, cr: CompiledRoute, r: Result<seq<CompiledRoute>, string>)
    ensures Prefixed(done, Prefixed([cr], r)) == Prefixed(done + [cr], r)
  {
    if r.Success? {
      assert done + ([cr] + r.value) == (done + [cr]) + r.value;
    }
  }

  /** The body of `Build`'s route loop for one configured route. */
  method CompileRouteCfg(rc: RouteCfg, tools: Tools) returns (r: Result<CompiledRoute, string>)
    ensures r == CompileRoute(rc, tools)
  {
    var src, segs, names := CompilePath(rc.pathTemplate);
    var reqSchema: Option<string> := None;
    if rc.schemas.Some? && !IsBlank(rc.schemas.value.requestJsonSchema) {
      var err := tools.schemaError(rc.schemas.value.requestJsonSchema);
      if err.Some? {
        return Failure("compile jsonschema for " + rc.httpMethod + " " + rc.pathTemplate + ": " + err.value);
      }
      reqSchema := Some(rc.schemas.value.requestJsonSchema);
    }
    var scenarios := CompileScenarioList(rc.scenarios, tools.marshal);
    var def: Option<CompiledScenario> := None;
    if rc.defaultScenario.Some? {
      var d := rc.defaultScenario.value;
      def := Some(CompiledScenario(
        IfEmpty(d.name, "default"), 999999, None, IfZero(d.status, 200), d.headers,
        tools.marshal(d.body), false, d.latencyMs, 0, 0));
    }
    r := Success(CompiledRoute(Upper(rc.httpMethod), rc.pathTemplate, segs, names, rc.strict, reqSchema, scenarios, def));
  }

  /**
   * `Build(&cfg)`: sets the default project on the caller's configuration (also when the build
   * then fails), then compiles route by route, stopping at the first schema error.
   */
  method Build(doc: ConfigDoc, tools: Tools) returns (r: Result<Snapshot, string>)
    modifies doc
    ensures doc.cfg == old(doc.cfg).(project := DefaultProject(old(doc.cfg).project))
    ensures r == CompileConfig(old(doc.cfg), tools)
  {
    if doc.cfg.project == "" {
      doc.cfg := doc.cfg.(project := "demo");
    }
    var cfg := doc.cfg;
    var rpm := 0;
    if cfg.rateLimit.Some? && cfg.rateLimit.value.requestsPerMinute > 0 {
      rpm := cfg.rateLimit.value.requestsPerMinute;
    }
    var routes: seq<CompiledRoute> := [];
    var rcs := cfg.routes;
    PrefixedStart(rcs, tools);
    for i := 0 to |rcs|
      invariant doc.cfg == cfg
      invariant CompileRoutes(rcs, tools) == Prefixed(routes, CompileRoutes(rcs[i..], tools))
    {
      CompileRoutesStep(rcs, i, tools);
      var one := CompileRouteCfg(rcs[i], tools);
      if one.Failure? {
        return Failure(one.error);
      }
      PrefixedAppend(routes, one.value, CompileRoutes(rcs[i + 1..], tools));
      routes := routes + [one.value];
    }
    PrefixedEnd(rcs, routes, tools);
    r := Success(Snapshot(cfg.project, cfg.env, {cfg.apiKey}, rpm, routes));
  }

  lemma PrefixedStart(rcs: seq<RouteCfg>, tools: Tools)
    ensures CompileRoutes(rcs, tools) == Prefixed([], CompileRoutes(rcs[0..], tools))
  {
    assert rcs[0..] == rcs;
    if CompileRoutes(rcs, tools).Success? {
      assert [] + CompileRoutes(rcs, tools).value == CompileRoutes(rcs, tools).value;
    }
  }

  lemma PrefixedEnd(rcs: seq<RouteCfg>, routes: seq<CompiledRoute>, tools: Tools)
    requires CompileRoutes(rcs, tools) == Prefixed(routes, CompileRoutes(rcs[|rcs|..], tools))
    ensures CompileRoutes(rcs, tools) == Success(routes)
  {
    assert rcs[|rcs|..] == [] && routes + [] == routes;
  }

  // ---------------------------------------------------------------------------------------
  // Scenario totals (the import summary)

  /** The number of compiled scenarios over all routes (defaults are not scenarios). */
  function TotalScenarios(routes: seq<CompiledRoute>): nat
    decreases |routes|
  {
    if routes == [] then 0 else TotalScenarios(routes[..|routes| - 1]) + |routes[|routes| - 1].scenarios|
  }

  /** The number of configured scenarios over all routes (defaults are not counted). */
  function ConfiguredScenarios(rcs: seq<RouteCfg>): nat
    decreases |rcs|
  {
    if rcs == [] then 0 else ConfiguredScenarios(rcs[..|rcs| - 1]) + |rcs[|rcs| - 1].scenarios|
  }

  /** A successful build has exactly as many scenarios as the configuration lists, defaults excluded. */
  lemma BuildScenarioCount(cfg: Config, tools: Tools)
    requires CompileConfig(cfg, tools).Success?
    ensures TotalScenarios(CompileConfig(cfg, tools).value.routes) == ConfiguredScenarios(cfg.routes)
  {
    CompileConfigSpec(cfg, tools);
    var routes := CompileConfig(cfg, tools).value.routes;
    forall i | 0 <= i < |cfg.routes| ensures |routes[i].scenarios| == |cfg.routes[i].scenarios| {
      CompileRouteSpec(cfg.routes[i], tools);
    }
    CountsAgree(routes, cfg.routes);
  }

  lemma {:induction false} CountsAgree(routes: seq<CompiledRoute>, rcs: seq<RouteCfg>)
    requires |routes| == |rcs|
    requires forall i :: 0 <= i < |rcs| ==> |routes[i].scenarios| == |rcs[i].scenarios|
    ensures TotalScenarios(routes) == ConfiguredScenarios(rcs)
    decreases |rcs|
  {
    if rcs != [] {
      CountsAgree(routes[..|routes| - 1], rcs[..|rcs| - 1]);
    }
  }
}

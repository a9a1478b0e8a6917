/**
 * The request-resolution logic of the server (internal/server/server.go): path
 * normalisation, first-match route lookup, the gate order of the runtime handler,
 * fault injection, the status default, and the compile-then-swap import.
 */
module Server {
  import opened Wrappers
  import opened Text
  import opened Json
  import opened Config
  import opened Pattern
  import opened Snapshot
  import opened Rules
  import opened Compile

  // ---------------------------------------------------------------------------------------
  // Path normalisation

  /** `"/" + strings.TrimPrefix(path, "/")`: at most one leading `/` is dropped, then one is added. */
  function NormalizePath(p: string): (r: string)
    ensures HasPrefix(r, "/")
    ensures HasPrefix(p, "/") ==> r == p
    ensures !HasPrefix(p, "/") ==> r == "/" + p
  {
    "/" + TrimPrefix(p, "/")
  }

  /** Normalising twice changes nothing more. */
  lemma NormalizeIdempotent(p: string)
    ensures NormalizePath(NormalizePath(p)) == NormalizePath(p)
  {
    assert HasPrefix(NormalizePath(p), "/");
  }

  /** Only one leading slash is dropped: repeated slashes survive, and the empty path becomes `/`. */
  lemma NormalizeExamples()
    ensures NormalizePath("") == "/"
    ensures NormalizePath("widgets/42") == "/widgets/42"
    ensures NormalizePath("//widgets") == "//widgets"
  {
    assert HasPrefix("//widgets", "/") by { assert "//widgets"[..1] == "/"; }
    assert !HasPrefix("widgets/42", "/") by { assert "widgets/42"[..1] == "w"; }
  }

  // ---------------------------------------------------------------------------------------
  // Route lookup

  /** What `compilePath` guarantees of a route: a well-formed pattern with one name per capture. */
  predicate RouteShape(cr: CompiledRoute) {
    WellFormed(cr.pathPattern) && ParamCount(cr.pathPattern) == |cr.paramNames|
  }

  predicate WellShaped(snap: Snapshot) {
    forall i :: 0 <= i < |snap.routes| ==> RouteShape(snap.routes[i])
  }

  /** A route serves a request when its method is the request's and its pattern matches the path. */
  predicate Hits(cr: CompiledRoute, httpMethod: string, path: string) {
    cr.httpMethod == httpMethod && Match(cr.pathPattern, path).Some?
  }

  /** The index of the first route, in table order, that serves the request. */
  function FirstRoute(routes: seq<CompiledRoute>, httpMethod: string, path: string): (r: Option<nat>)
    ensures r.Some? ==> r.value < |routes| && Hits(routes[r.value], httpMethod, path)
    ensures r.Some? ==> forall j :: 0 <= j < r.value ==> !Hits(routes[j], httpMethod, path)
    ensures r.None? ==> forall j :: 0 <= j < |routes| ==> !Hits(routes[j], httpMethod, path)
    decreases |routes|
  {
    if routes == [] then None
    else if Hits(routes[0], httpMethod, path) then Some(0)
    else match FirstRoute(routes[1..], httpMethod, path)
      case None => None
      case Some(k) => Some(k + 1)
  }

  /**
   * The params map filled by `params[name] = m[i+1]` in name order: every name gets a
   * value, and a name repeated later is overwritten by the later capture.
   */
  function ParamsOf(names: seq<string>, caps: seq<string>): (m: map<string, string>)
    requires |caps| == |names|
    ensures m.Keys == set i | 0 <= i < |names| :: names[i]
    decreases |names|
  {
    if names == [] then map[]
    else ParamsOf(names[..|names| - 1], caps[..|caps| - 1])[names[|names| - 1] := caps[|caps| - 1]]
  }

  /** A name takes the capture of its last occurrence. */
  lemma {:induction false} ParamsLastWins(names: seq<string>, caps: seq<string>, i: nat)
    requires |caps| == |names| && i < |names|
    requires forall j :: i < j < |names| ==> names[j] != names[i]
    ensures ParamsOf(names, caps)[names[i]] == caps[i]
    decreases |names|
  {
    var n := |names| - 1;
    var ns, cs := names[..n], caps[..n];
    assert ParamsOf(names, caps) == ParamsOf(ns, cs)[names[n] := caps[n]];
    if i < n {
      assert names[n] != names[i];
      ParamsLastWinsStep(names, caps, i);
      ParamsLastWins(ns, cs, i);
    }
  }

  lemma ParamsLastWinsStep(names: seq<string>, caps: seq<string>, i: nat)
    requires |caps| == |names| && i < |names| - 1
    requires forall j :: i < j < |names| ==> names[j] != names[i]
    ensures var ns := names[..|names| - 1];
      |caps[..|names| - 1]| == |ns| && ns[i] == names[i] && forall j :: i < j < |ns| ==> ns[j] != ns[i]
  {
  }

  /** `for i, name := range cr.ParamNames { params[name] = m[i+1] }`. */
  method BuildParams(names: seq<string>, caps: seq<string>) returns (params: map<string, string>)
    requires |caps| == |names|
    ensures params == ParamsOf(names, caps)
  {
    params := map[];
    for i := 0 to |names|
      invariant params == ParamsOf(names[..i], caps[..i])
    {
      assert names[..i + 1][..i] == names[..i] && caps[..i + 1][..i] == caps[..i];
      params := params[names[i] := caps[i]];
    }
    assert names[..|names|] == names && caps[..|caps|] == caps;
  }

  /**
   * The route loop of `handleRuntime`: skips routes of another method, stops at the first
   * pattern that matches, and fills the params from its captures.
   */
  method LookupRoute(routes: seq<CompiledRoute>, httpMethod: string, path: string)
    returns (found: Option<nat>, params: map<string, string>)
    requires forall i :: 0 <= i < |routes| ==> RouteShape(routes[i])
    ensures found == FirstRoute(routes, httpMethod, path)
    ensures found.Some? ==> params == RouteParams(routes[found.value], path)
  {
    found, params := None, map[];
    var i := 0;
    while i < |routes|
      invariant 0 <= i <= |routes| && found.None?
      invariant forall j :: 0 <= j < i ==> !Hits(routes[j], httpMethod, path)
    {
      var cr := routes[i];
      if cr.httpMethod == httpMethod {
        var m := Match(cr.pathPattern, path);
        if m.Some? {
          MatchSound(cr.pathPattern, path, m.value);
          params := BuildParams(cr.paramNames, m.value);
          found := Some(i);
          break;
        }
      }
      i := i + 1;
    }
  }

  /** The params of a route that matches the path. */
  function RouteParams(cr: CompiledRoute, path: string): (m: map<string, string>)
    requires RouteShape(cr) && Match(cr.pathPattern, path).Some?
    ensures m.Keys == set i | 0 <= i < |cr.paramNames| :: cr.paramNames[i]
  {
    MatchSound(cr.pathPattern, path, Match(cr.pathPattern, path).value);
    ParamsOf(cr.paramNames, Match(cr.pathPattern, path).value)
  }

  /** The single-name params map of the example. */
  lemma OneParam()
    ensures ParamsOf(["id"], ["42"]) == map["id" := "42"]
  {
    var names: seq<string> := ["id"];
    var caps: seq<string> := ["42"];
    assert names[..0] == [] && caps[..0] == [];
  }

  /** `GET /widgets/:id` serves `/widgets/42` with `id = 42`, and nothing else in the example. */
  lemma WidgetsLookup(rt: CompiledRoute)
    requires rt.httpMethod == "GET"
    requires rt.pathPattern == PatternOf("/widgets/:id") && rt.paramNames == ParamNamesOf("/widgets/:id")
    ensures RouteShape(rt) && FirstRoute([rt], "GET", "/widgets/42") == Some(0)
    ensures RouteParams(rt, "/widgets/42") == map["id" := "42"]
    ensures FirstRoute([rt], "GET", "/widgets/42/") == None
    ensures FirstRoute([rt], "POST", "/widgets/42") == None
  {
    WidgetsCompiles();
    WidgetsMatches();
    assert RouteShape(rt) by {
      assert ParamCount([Lit("widgets"), Param]) == 1;
    }
    assert Hits(rt, "GET", "/widgets/42");
    assert !Hits(rt, "GET", "/widgets/42/");
    assert !Hits(rt, "POST", "/widgets/42") by { assert "GET"[0] != "POST"[0]; }
    assert Match(rt.pathPattern, "/widgets/42").value == ["42"];
    OneParam();
  }

  // ---------------------------------------------------------------------------------------
  // Fault injection and the status default

  /** `roll(pct)` with the clock reading `clock` as the generator's seed. */
  function Roll(pct: int, clock: int): (hit: bool)
    ensures pct <= 0 ==> !hit
    ensures pct >= 100 ==> hit
    ensures 0 < pct < 100 ==> (hit <==> Lcg(clock) % 100 < pct)
  {
    if pct <= 0 then false
    else if pct >= 100 then true
    else Lcg(clock) % 100 < pct
  }

  /** A larger error rate fires on every clock reading a smaller one fires on. */
  lemma RollMonotone(p: int, q: int, clock: int)
    requires p <= q && Roll(p, clock)
    ensures Roll(q, clock)
  {
  }

  /** `roll` on a 64-bit clock reading, with the product wrapping as in the source. */
  lemma RollInt64(pct: int, clock: int)
    requires -0x8000_0000_0000_0000 <= clock < 0x8000_0000_0000_0000
    requires 0 < pct < 100
    ensures Roll(pct, clock) <==> (Wrap64(1103515245 * clock + 12345) % Modulus31) % 100 < pct
  {
    Int64StepAgrees(clock);
  }

  /** Exactly the readings whose next generator value ends below `pct` (mod 100) fire. */
  lemma RollFires(pct: int, clock: int)
    requires 0 < pct < 100
    ensures Roll(pct, clock) ==> Lcg(clock) % 100 < pct
    ensures Lcg(clock) % 100 < pct ==> Roll(pct, clock)
  {
  }

  // ---------------------------------------------------------------------------------------
  // The runtime gates

  /** What the handler reads from a request; `body` is the decoded JSON object, if any. */
  datatype Request = Request(
    apiKey: string,
    httpMethod: string,
    path: string,
    query: map<string, seq<string>>,
    headers: map<string, seq<string>>,
    rawBody: string,
    body: Option<map<string, Value>>)

  /** The outcome of a runtime request, by the gate that decided it. */
  datatype Response =
    | Unauthorized                 // 401 "invalid api key"
    | RateLimited                  // 429 "rate limit", Retry-After: 60
    | RouteNotFound(path: string)  // 404 naming the normalised request path
    | ValidationFailed(details: string) // 400 "validation failed"
    | InjectedError                // 500 "injected error"
    | Served(status: int, scenario: CompiledScenario, params: map<string, string>)

  function StatusCode(r: Response): int {
    match r
    case Unauthorized => 401
    case RateLimited => 429
    case RouteNotFound(_) => 404
    case ValidationFailed(_) => 400
    case InjectedError => 500
    case Served(status, _, _) => status
  }

  /**
   * The foreign pieces a request runs through: `toString`/header canonicalisation for the
   * rules, and the schema validator (`Some(error)` when the schema text rejects the body).
   */
  datatype Hooks = Hooks(lib: Lib, validate: (string, string) -> Option<string>)

  /**
   * `requireRuntimeKey` followed by `handleRuntime` on one snapshot. `allow` is the rate
   * limiter's decision for the key, `seed` the selector's generator state and `clock` the
   * reading `roll` seeds from. The result is the response and the generator state after it.
   */
  function Respond(snap: Snapshot, req: Request, allow: bool, hooks: Hooks, seed: int, clock: int):
    (out: (Response, int))
    requires WellShaped(snap)
    ensures req.apiKey !in snap.apiKeys ==> out == (Unauthorized, seed)
    ensures out.0.RateLimited? ==> req.apiKey in snap.apiKeys && snap.rateLimit > 0 && !allow
    ensures out.0.RouteNotFound? ==>
              out.0.path == NormalizePath(req.path) && HasPrefix(out.0.path, "/")
              && FirstRoute(snap.routes, Upper(req.httpMethod), NormalizePath(req.path)).None?
    ensures out.0.Served? ==> out.0.status != 0
    ensures out.0.Served? && out.0.scenario.status != 0 ==> out.0.status == out.0.scenario.status
    ensures out.0.Served? && out.0.scenario.status == 0 ==> out.0.status == 200
    ensures out.0.Served? ==> out.0.scenario.errorRatePct <= 0 || !Roll(out.0.scenario.errorRatePct, clock)
    ensures !out.0.Served? && !out.0.InjectedError? ==> out.1 == seed
  {
    if req.apiKey !in snap.apiKeys then (Unauthorized, seed)
    else if snap.rateLimit > 0 && !allow then (RateLimited, seed)
    else
      var path := NormalizePath(req.path);
      match FirstRoute(snap.routes, Upper(req.httpMethod), path)
      case None => (RouteNotFound(path), seed)
      case Some(k) =>
        var rt := snap.routes[k];
        if rt.strict && rt.reqSchema.Some? && hooks.validate(rt.reqSchema.value, req.rawBody).Some? then
          (ValidationFailed(hooks.validate(rt.reqSchema.value, req.rawBody).value), seed)
        else
          var (sc, next) := Pick(hooks.lib, rt, MatchContext(req.query, req.headers, req.body), seed);
          if sc.errorRatePct > 0 && Roll(sc.errorRatePct, clock) then (InjectedError, next)
          else (Served(IfZero(sc.status, 200), sc, RouteParams(rt, path)), next)
  }

  /** The limiter is consulted only when a rate limit is configured. */
  lemma LimiterOnlyWhenLimited(snap: Snapshot, req: Request, hooks: Hooks, seed: int, clock: int)
    requires WellShaped(snap) && snap.rateLimit <= 0
    ensures Respond(snap, req, true, hooks, seed, clock) == Respond(snap, req, false, hooks, seed, clock)
    ensures !Respond(snap, req, false, hooks, seed, clock).0.RateLimited?
  {
  }

  /** An unknown key is refused whatever the limiter would say: the key check comes first. */
  lemma KeyBeforeLimit(snap: Snapshot, req: Request, hooks: Hooks, seed: int, clock: int, allow: bool)
    requires WellShaped(snap) && req.apiKey !in snap.apiKeys
    ensures StatusCode(Respond(snap, req, allow, hooks, seed, clock).0) == 401
  {
  }

  /**
   * A strict route whose schema rejects the body answers 400 with the validator's message,
   * and no scenario is selected (the generator does not move).
   */
  lemma StrictRejects(snap: Snapshot, req: Request, allow: bool, hooks: Hooks, seed: int, clock: int)
    requires WellShaped(snap) && req.apiKey in snap.apiKeys && (snap.rateLimit <= 0 || allow)
    requires var k := FirstRoute(snap.routes, Upper(req.httpMethod), NormalizePath(req.path));
      && k.Some? && snap.routes[k.value].strict && snap.routes[k.value].reqSchema.Some?
      && hooks.validate(snap.routes[k.value].reqSchema.value, req.rawBody).Some?
    ensures var k := FirstRoute(snap.routes, Upper(req.httpMethod), NormalizePath(req.path)).value;
      Respond(snap, req, allow, hooks, seed, clock) ==
        (ValidationFailed(hooks.validate(snap.routes[k].reqSchema.value, req.rawBody).value), seed)
  {
  }

  /** A known key with a positive limit that the limiter denies answers 429, selecting nothing. */
  lemma Limited429(snap: Snapshot, req: Request, hooks: Hooks, seed: int, clock: int)
    requires WellShaped(snap) && req.apiKey in snap.apiKeys && snap.rateLimit > 0
    ensures Respond(snap, req, false, hooks, seed, clock) == (RateLimited, seed)
  {
  }

  /**
   * Past the key and limit gates, a request no route serves answers 404 naming the normalised
   * path, and no scenario is selected.
   */
  lemma NoRoute404(snap: Snapshot, req: Request, allow: bool, hooks: Hooks, seed: int, clock: int)
    requires WellShaped(snap) && req.apiKey in snap.apiKeys && (snap.rateLimit <= 0 || allow)
    requires FirstRoute(snap.routes, Upper(req.httpMethod), NormalizePath(req.path)).None?
    ensures Respond(snap, req, allow, hooks, seed, clock) == (RouteNotFound(NormalizePath(req.path)), seed)
  {
  }

  /**
   * Past every gate, the route's pick is served unless its error rate is positive and the roll
   * fires, in which case the answer is 500; either way the generator has made the pick's step.
   */
  lemma PickedOutcome(snap: Snapshot, req: Request, allow: bool, hooks: Hooks, seed: int, clock: int)
    requires WellShaped(snap) && req.apiKey in snap.apiKeys && (snap.rateLimit <= 0 || allow)
    requires var k := FirstRoute(snap.routes, Upper(req.httpMethod), NormalizePath(req.path));
      && k.Some?
      && !(snap.routes[k.value].strict && snap.routes[k.value].reqSchema.Some?
           && hooks.validate(snap.routes[k.value].reqSchema.value, req.rawBody).Some?)
    ensures var path := NormalizePath(req.path);
      var rt := snap.routes[FirstRoute(snap.routes, Upper(req.httpMethod), path).value];
      var (sc, next) := Pick(hooks.lib, rt, MatchContext(req.query, req.headers, req.body), seed);
      var out := Respond(snap, req, allow, hooks, seed, clock);
      && out.1 == next
      && (sc.errorRatePct > 0 && Roll(sc.errorRatePct, clock) ==> out.0 == InjectedError)
      && (!(sc.errorRatePct > 0 && Roll(sc.errorRatePct, clock)) ==>
            out.0 == Served(IfZero(sc.status, 200), sc, RouteParams(rt, path)))
  {
  }

  /**
   * A served response comes from the first route that serves the request: its scenario is
   * that route's pick, its params cover exactly the route's names, and, when any scenario of
   * the route matches, the scenario matches and none of smaller priority does.
   */
  lemma ServedFromFirstRoute(snap: Snapshot, req: Request, allow: bool, hooks: Hooks, seed: int, clock: int)
    requires WellShaped(snap)
    requires Respond(snap, req, allow, hooks, seed, clock).0.Served?
    ensures var path := NormalizePath(req.path);
      var k := FirstRoute(snap.routes, Upper(req.httpMethod), path);
      var out := Respond(snap, req, allow, hooks, seed, clock);
      var ctx := MatchContext(req.query, req.headers, req.body);
      && req.apiKey in snap.apiKeys
      && k.Some? && snap.routes[k.value].httpMethod == Upper(req.httpMethod)
      && (out.0.scenario, out.1) == Pick(hooks.lib, snap.routes[k.value], ctx, seed)
      && out.0.params.Keys == (set i | 0 <= i < |snap.routes[k.value].paramNames| :: snap.routes[k.value].paramNames[i])
      && ((exists y :: y in snap.routes[k.value].scenarios && Matches(hooks.lib, y, ctx)) ==>
            && out.0.scenario in snap.routes[k.value].scenarios
            && Matches(hooks.lib, out.0.scenario, ctx)
            && forall y :: y in snap.routes[k.value].scenarios && y.priority < out.0.scenario.priority ==>
                 !Matches(hooks.lib, y, ctx))
  {
    var path := NormalizePath(req.path);
    var k := FirstRoute(snap.routes, Upper(req.httpMethod), path).value;
    var ctx := MatchContext(req.query, req.headers, req.body);
    if exists y :: y in snap.routes[k].scenarios && Matches(hooks.lib, y, ctx) {
      PickMatched(hooks.lib, snap.routes[k], ctx, seed);
    }
  }

  // ---------------------------------------------------------------------------------------
  // The server

  /** Reply of the import handler. */
  datatype ImportReply =
    | ImportFailed(details: string)                       // 400 "compile"
    | Imported(project: string, routes: nat, scenarios: nat) // 200 summary

  /** `handleImport`'s summary loop: scenarios over all routes, defaults not included. */
  method ScenarioCount(routes: seq<CompiledRoute>) returns (n: nat)
    ensures n == TotalScenarios(routes)
  {
    n := 0;
    for i := 0 to |routes|
      invariant n == TotalScenarios(routes[..i])
    {
      assert routes[..i + 1][..i] == routes[..i];
      n := n + |routes[i].scenarios|;
    }
    assert routes[..|routes|] == routes;
  }

  /** A snapshot `Build` produces has only well-shaped routes. */
  lemma CompiledWellShaped(cfg: Config, tools: Tools)
    requires CompileConfig(cfg, tools).Success?
    ensures WellShaped(CompileConfig(cfg, tools).value)
  {
    CompileConfigSpec(cfg, tools);
    var snap := CompileConfig(cfg, tools).value;
    forall i | 0 <= i < |snap.routes| ensures RouteShape(snap.routes[i]) {
      CompileRouteSpec(cfg.routes[i], tools);
      CompiledPattern(cfg.routes[i].pathTemplate);
    }
  }

  /** The server with its current snapshot (an ordinary field standing for the atomic value). */
  class MockServer {
    var snap: Snapshot

    predicate Valid()
      reads this
    {
      WellShaped(snap)
    }

    constructor(initial: Snapshot)
      requires WellShaped(initial)
      ensures snap == initial && Valid()
    {
      snap := initial;
    }

    /** The runtime path: gates, lookup, selection, fault injection and status. */
    method HandleRuntime(req: Request, allow: bool, hooks: Hooks, rng: Rng, clock: int)
      returns (resp: Response)
      requires Valid()
      modifies rng
      ensures (resp, rng.seed) == Respond(snap, req, allow, hooks, old(rng.seed), clock)
    {
      var s := snap;
      if req.apiKey !in s.apiKeys {
        return Unauthorized;
      }
      if s.rateLimit > 0 && !allow {
        return RateLimited;
      }
      var path := NormalizePath(req.path);
      var httpMethod := Upper(req.httpMethod);
      var found, params := LookupRoute(s.routes, httpMethod, path);
      if found.None? {
        return RouteNotFound(path);
      }
      var rt := s.routes[found.value];
      if rt.strict && rt.reqSchema.Some? {
        var err := hooks.validate(rt.reqSchema.value, req.rawBody);
        if err.Some? {
          return ValidationFailed(err.value);
        }
      }
      var ctx := MatchContext(req.query, req.headers, req.body);
      var sc := PickScenario(hooks.lib, rt, ctx, rng);
      if sc.errorRatePct > 0 && Roll(sc.errorRatePct, clock) {
        return InjectedError;
      }
      resp := Served(IfZero(sc.status, 200), sc, params);
    }

    /**
     * Compile-then-swap: a failing build leaves the snapshot as it was; a successful one
     * replaces it by exactly the compiled snapshot and reports its counts.
     */
    method HandleImport(cfg: Config, tools: Tools) returns (reply: ImportReply)
      requires Valid()
      modifies this
      ensures Valid()
      ensures CompileConfig(cfg, tools).Failure? ==>
                snap == old(snap) && reply == ImportFailed(CompileConfig(cfg, tools).error)
      ensures CompileConfig(cfg, tools).Success? ==>
                && snap == CompileConfig(cfg, tools).value
                && reply == Imported(snap.project, |snap.routes|, TotalScenarios(snap.routes))
                && reply.routes == |cfg.routes|
                && reply.scenarios == ConfiguredScenarios(cfg.routes)
    {
      var doc := new ConfigDoc(cfg);
      var r := Build(doc, tools);
      if r.Failure? {
        return ImportFailed(r.error);
      }
      CompiledWellShaped(cfg, tools);
      CompileConfigSpec(cfg, tools);
      BuildScenarioCount(cfg, tools);
      snap := r.value;
      var n := ScenarioCount(snap.routes);
      reply := Imported(snap.project, |snap.routes|, n);
    }
  }
}

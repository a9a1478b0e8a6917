/** The compiled route table and the per-request match context (internal/snapshot/types.go). */
module Snapshot {
  import opened Wrappers
  import opened Json
  import opened Config
  import opened Pattern

  datatype CompiledScenario = CompiledScenario(
    name: string,
    priority: int,
    matchRules: Option<MatchRules>,
    status: int,
    headers: map<string, string>,
    bodyBytes: string,
    bodyIsBase64: bool,
    latencyMs: int,
    errorRatePct: int,
    weight: int)

  /**
   * `pathPattern` stands for the compiled `PathRE`; `reqSchema` holds the source text of a
   * request schema that compiled.
   */
  datatype CompiledRoute = CompiledRoute(
    httpMethod: string,
    pathTemplate: string,
    pathPattern: seq<Segment>,
    paramNames: seq<string>,
    strict: bool,
    reqSchema: Option<string>,
    scenarios: seq<CompiledScenario>,
    defaultScenario: Option<CompiledScenario>)

  datatype Snapshot = Snapshot(
    project: string,
    env: map<string, string>,
    apiKeys: set<string>,
    rateLimit: int,
    routes: seq<CompiledRoute>)

  /** `url.Values`, `http.Header` and the decoded body (`None` for Go's nil map). */
  datatype MatchContext = MatchContext(
    query: map<string, seq<string>>,
    headers: map<string, seq<string>>,
    body: Option<map<string, Value>>)

  /** Go's `values[k]`: the list under `k`, or the nil (empty) list when `k` is absent. */
  function ValuesOf(m: map<string, seq<string>>, k: string): seq<string> {
    if k in m then m[k] else []
  }
}

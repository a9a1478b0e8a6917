/** The configuration document as decoded from JSON or YAML (internal/config/types.go). */
module Config {
  import opened Wrappers
  import opened Json

  /** One condition: `$eq` (`JNull` when absent or null) and `$in` (empty when absent). */
  datatype Cond = Cond(eq: Value, inList: seq<Value>)

  /** Conditions keyed by query parameter, header name and dotted body path. */
  datatype MatchRules = MatchRules(
    query: map<string, Cond>,
    headers: map<string, Cond>,
    body: map<string, Cond>)

  datatype ScenarioCfg = ScenarioCfg(
    name: string,
    priority: int,
    matchRules: Option<MatchRules>,
    status: int,
    headers: map<string, string>,
    body: Value,
    bodyBase64: string,
    latencyMs: int,
    errorRatePct: int,
    weight: int)

  datatype SchemasCfg = SchemasCfg(requestJsonSchema: string, responseJsonSchema: string)

  datatype RouteCfg = RouteCfg(
    httpMethod: string,
    pathTemplate: string,
    strict: bool,
    schemas: Option<SchemasCfg>,
    scenarios: seq<ScenarioCfg>,
    defaultScenario: Option<ScenarioCfg>)

  datatype RateLimitCfg = RateLimitCfg(requestsPerMinute: int)

  datatype Config = Config(
    project: string,
    baseUrl: string,
    apiKey: string,
    rateLimit: Option<RateLimitCfg>,
    env: map<string, string>,
    routes: seq<RouteCfg>)
}

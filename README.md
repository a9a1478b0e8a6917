# mocksmith request-resolution engine in Dafny

mocksmith is a mock-API server. An administrator imports a configuration of routes. Each route
has a method, a `:param` path template, optional strict JSON-Schema validation, a list of
scenarios and an optional default scenario. The server compiles the configuration into a
snapshot. For every runtime request it then:

1. checks the API key;
2. applies the per-key rate limit;
3. finds the first route whose method and path pattern match;
4. validates the body of strict routes;
5. selects a scenario;
6. may inject an error;
7. answers with the scenario's status and rendered body.

To select, it sorts scenarios by priority and takes the first equal-priority group that has a
scenario whose query, header and body conditions hold. It then draws one scenario of that
group by weight, using a linear congruential generator.

This project models that engine and proves what it promises:

| file | module | models |
|---|---|---|
| `wrappers.dfy` | `Wrappers` | `Option` and `Result` |
| `text.dfy` | `Text` | the Go `strings` operations the core relies on: prefix trimming, `Split`/`Join` as inverses, non-overlapping left-to-right `ReplaceAll`, ASCII case mapping, blank test |
| `json.dfy`, `config.dfy`, `snapshot.dfy` | `Json`, `Config`, `Snapshot` | decoded JSON values, `internal/config/types.go` and `internal/snapshot/types.go` transcribed as datatypes |
| `pattern.dfy` | `Pattern` | the compiled path pattern as a list of segments (`Lit(text)` or `Param`, the `([^/]+)` group) and its anchored matching, with soundness and completeness of matching |
| `rules.dfy` | `Rules` | `rules.go`: conditions, `getDot`, the stable priority sort, group walk, weighted pick and the generator (a class `Rng` holding `seed`) |
| `compile.dfy` | `Compile` | `build.go`: defaults, `compilePath` (pattern, names and the regex text it writes), route and scenario compilation, and `Build`, with its write-back to the caller's config object (class `ConfigDoc`) |
| `templating.dfy` | `Templating` | `templating.go`: the token table and the fold of `ReplaceAll` over it in an order given as a parameter |
| `server.dfy` | `Server` | the non-HTTP logic of `server.go`: path normalisation, the route loop, `roll`, the gate order, the status default and compile-then-swap import. Class `MockServer` holds the snapshot |

Inputs the model takes as parameters instead of computing them:

- **String formatting:** `Rules.Lib` bundles `toString`'s formatter for non-string values and `http.CanonicalHeaderKey`.
- **Library calls:** `Compile.Tools` bundles the JSON-Schema compiler (as "error or none") and `json.Marshal`. `Server.Hooks` adds the schema validator.
- **Rate limiting and time:** the rate limiter's decision is a boolean, and the clock reading `roll` seeds from is an integer.
- **Token order:** the order in which templating applies its table is a sequence that lists every key once, as Go map iteration does.

Where the code and its written description differ, the model follows the code:

- **`weightedPick`:** the total uses weights with `<= 0` replaced by 1, but the cumulative walk uses the original weights. When no prefix exceeds the draw, the walk falls back to the first candidate (`Rules.Walk`, `Rules.WeightedPick`).
- **Error message:** the schema error message uses the method as configured, not upper-cased.

## Model

| member | source | states |
|---|---|---|
| Rules.ToString | internal/rules/rules.go:138-141 | a string value formats as itself; anything else is left to the abstract formatter |
| Rules.CheckCond | internal/rules/rules.go:89-112 | result is `CondHolds`: a non-null `$eq` needs a first value equal to its formatting, a non-empty `$in` needs some value in the formatted set, neither means true |
| Rules.ParseIndexedMatchesRegex | internal/rules/rules.go:16 | the segment parser accepts exactly the segments of the form `name[digits]` with a non-empty `name` free of newlines, and yields that name and the decimal value |
| Rules.GetDot | internal/rules/rules.go:114-136 | the loop's result is `Lookup` over the dot-split path: a key step on an object, an index step on an array field in range, null for a non-object or a missing or out-of-range step |
| Rules.LookupAppend | internal/rules/rules.go:116-134 | walking `a + b` is walking `a` then `b`, so each segment is applied to the value the previous ones reached |
| Rules.CondsQuery | internal/rules/rules.go:61-69 | true exactly when every query condition holds on that key's values (absent key: no values), whatever the map order |
| Rules.CondsHeader | internal/rules/rules.go:70-78 | true exactly when every header condition holds on the values under the canonicalised key |
| Rules.CondsBody | internal/rules/rules.go:79-87 | true exactly when every body condition holds on the one-element list holding the formatted `getDot` value, missing paths included |
| Rules.RulesOK | internal/rules/rules.go:52-59 | no rules means true; otherwise the conjunction of the query, header and body conditions |
| Rules.InsertStable | internal/rules/rules.go:21 | inserting into a sorted list keeps it sorted and adds exactly one copy of the element |
| Rules.InsertStableClasses | internal/rules/rules.go:21 | insertion places the new element before the existing elements of its priority (so inserting from the back keeps ties in order) and leaves other priorities alone |
| Rules.SortByPriority | internal/rules/rules.go:20-21 | the sorted copy is ascending by priority, a permutation of the scenarios, and keeps each priority's scenarios in their original order (stability) |
| Rules.FirstMatchingGroupSorted | internal/rules/rules.go:23-41 | on a sorted list the group walk yields nothing iff no scenario matches; otherwise a non-empty list of matching scenarios of one priority with no matching scenario of smaller priority |
| Rules.Candidates | internal/rules/rules.go:20-41 | the same walk over the sorted copy of the route's scenarios, restated in terms of the unsorted list |
| Rules.MatchingEmpty | internal/rules/rules.go:31-36 | the candidate filter is empty iff no member of the group matches |
| Rules.MatchingMembers | internal/rules/rules.go:31-36 | every candidate is a member of the group that matches |
| Rules.Total | internal/rules/rules.go:164-170 | the normalised total is at least the number of candidates |
| Rules.Walk | internal/rules/rules.go:172-179 | the walk returns a member of the list: the first whose cumulative original weight exceeds the draw, or the first candidate when none does |
| Rules.WalkPositive | internal/rules/rules.go:163-180 | with positive weights and a draw in `[0, total)`, some candidate's cumulative weight exceeds the draw and that candidate is the one returned |
| Rules.CumPositive | internal/rules/rules.go:164-178 | with positive weights the walk's cumulative sums equal the normalised sums and strictly increase |
| Rules.Lcg | internal/rules/rules.go:184 | the next seed lies in `[0, 2^31)` |
| Rules.Int64StepAgrees | internal/rules/rules.go:184 | for every int64 seed, the Go step in wrapping int64 arithmetic masked to 31 bits equals the unbounded step modulo `2^31` |
| Rules.Rng.RandInt | internal/rules/rules.go:183-184 | advances the seed by one generator step and returns the new seed modulo `n`, a value in `[0, n)` |
| Rules.WeightedPick | internal/rules/rules.go:163-180 | one generator step, and the result is the walk at the new seed modulo the normalised total |
| Rules.PickScenario | internal/rules/rules.go:18-50 | the loop over priority groups returns the scenario and generator state of `Pick`: a weighted pick in the first group with a match, else the last resort with the seed untouched |
| Rules.GroupEnd | internal/rules/rules.go:24-28 | the inner scan stops right after the run of the current priority |
| Rules.Filter | internal/rules/rules.go:31-36 | the candidates are the group's matching scenarios in group order |
| Rules.PickMatched | internal/rules/rules.go:18-41 | when a scenario matches, the pick is a matching scenario of the route, no scenario of strictly smaller priority matches, and the seed advances by one step |
| Rules.PickUnmatched | internal/rules/rules.go:43-49 | when nothing matches, the seed is untouched and the result is the default, else the earliest scenario of smallest priority, else the `fallback` scenario |
| Compile.IfZero | internal/compile/build.go:115 | zero becomes the alternative, anything else is kept |
| Compile.IfEmpty | internal/compile/build.go:116 | a blank string becomes the alternative, anything else is kept |
| Compile.PathParts | internal/compile/build.go:95-96 | at least one part, none containing `/` |
| Compile.CompiledPattern | internal/compile/build.go:94-113 | the pattern is well formed, has one segment per part (a capture exactly at the `:` parts) and one capture per name, and the capture at each `:` part is the one whose index in the names is that part's name, the colon dropped |
| Compile.SegmentsShape | internal/compile/build.go:100-106 | one segment and one regex piece per part, each segment the part's own, and the capture count equals the name count |
| Compile.NamesAligned | internal/compile/build.go:100-106 | the name appended for the `:` part at position `i` sits at the index equal to the number of captures before `i`, so names and capture groups line up position by position |
| Compile.LiteralTemplateMatchesItself | internal/compile/build.go:94-113 | a template with a leading `/` and no `:` part matches its own text with no captures |
| Compile.CompilePath | internal/compile/build.go:94-113 | the loop writes `^/` plus the quoted parts joined by `/` plus `$`, and returns the segment list and names (the `:` parts without the colon, in order) |
| Compile.WrittenStep | internal/compile/build.go:100-110 | each iteration appends the part's piece and a `/` unless it is the last part |
| Compile.WidgetsMatches | internal/compile/build.go:94-113 | `/widgets/:id` matches `/widgets/42` with capture `42` and rejects `/widgets/42/` and `/widgets` |
| Compile.CompileScenario | internal/compile/build.go:53-73 | weight 0 becomes 1 and priority 0 becomes 100, every other value (negatives included) is kept, `BodyIsBase64` iff the base64 body is non-empty, and the other fields are copied |
| Compile.CompileScenariosShape | internal/compile/build.go:53-73 | one compiled scenario per configured scenario, in order |
| Compile.CompileScenarioList | internal/compile/build.go:53-73 | the append loop yields the compiled scenarios in configuration order |
| Compile.CompileDefault | internal/compile/build.go:75-86 | name defaults to `default`, status 0 to 200, priority 999999, no rules, no error rate, weight 0 |
| Compile.CompileRouteSpec | internal/compile/build.go:30-88 | fails iff a non-blank schema fails to compile, with a message starting `compile jsonschema for <method> <path>: `; otherwise gives the upper-cased method, the verbatim template, the compiled pattern and names, the schema, the scenarios in order and the default only in `Default` |
| Compile.CompileRouteCfg | internal/compile/build.go:31-86 | the loop body compiles one route as `CompileRoute` specifies |
| Compile.CompileRoutesSuccess | internal/compile/build.go:30-89 | all routes compile iff each does, giving one compiled route per configured route, in order |
| Compile.CompileRoutesFailure | internal/compile/build.go:37-40 | a failure is the error of the first route that fails, every earlier route having compiled |
| Compile.DefaultProject | internal/compile/build.go:15-17 | an empty project becomes `demo`; anything else is kept |
| Compile.RateOf | internal/compile/build.go:18-21 | the rate is the configured requests per minute when present and positive, else 0 |
| Compile.CompileConfigSpec | internal/compile/build.go:14-92 | success iff every route compiles; then project defaulted, env copied, the key set exactly `{apiKey}` (possibly `{""}`), the rate, and one route per configured route; failure carries the first failing route's error |
| Compile.RebuildSame | internal/compile/build.go:15-17 | compiling the written-back config again gives the same result |
| Compile.Build | internal/compile/build.go:14-92 | writes the defaulted project back to the caller's config object and returns `CompileConfig` of the original |
| Compile.BuildScenarioCount | internal/compile/build.go:53-73 | the compiled routes hold as many scenarios as the configuration lists, defaults excluded |
| Pattern.MatchSound | internal/server/server.go:193 | a match consumes the path exactly: one non-empty, slash-free capture per `Param`, and the path is `/` joined with the filled pieces |
| Pattern.MatchFill | internal/server/server.go:193 | filling a well-formed pattern with non-empty slash-free captures gives a path that matches with exactly those captures |
| Templating.TokenShape | internal/templating/templating.go:14-29 | every class token starts with `{{` and the class's first letter follows |
| Templating.TokenInjective | internal/templating/templating.go:14-29 | distinct keys of one class give distinct tokens |
| Templating.HeaderTokenExample | internal/templating/templating.go:24 | header `X-Debug` yields token `{{header.x-debug}}` |
| Templating.TableKeys | internal/templating/templating.go:11-33 | the token classes are pairwise disjoint and distinct from `{{now.iso}}` and `{{body}}`, so no loop overwrites another's entry |
| Templating.AddEntries | internal/templating/templating.go:14-16 | adds exactly one token per key carrying that key's value and keeps every other entry |
| Templating.AddQuery | internal/templating/templating.go:17-21 | adds a token for each query key with a non-empty value list, carrying the first value, and keeps every other entry |
| Templating.AddHeaders | internal/templating/templating.go:22-26 | adds a lower-cased token for each header with values, carrying the first value of a header that lower-cases to it, and keeps every other entry |
| Templating.BuildTable | internal/templating/templating.go:11-33 | the four loops produce a table that is exactly the token table of the request |
| Templating.ApplyEach | internal/templating/templating.go:34-38 | the replacement loop is the left fold of `ReplaceAll` over the order |
| Templating.RenderTokens | internal/templating/templating.go:10-39 | the output is the fold over the request's token table in the given order, and text without `{{` comes back unchanged |
| Templating.ApplyAllNoBraces | internal/templating/templating.go:34-38 | text with no `{{` is a fixed point of the fold |
| Templating.ParamPresence | internal/templating/templating.go:14-16 | `{{params.k}}` is a key iff `k` is a param |
| Templating.EnvPresence | internal/templating/templating.go:27-29 | `{{env.k}}` is a key iff `k` is an env variable |
| Templating.QueryPresence | internal/templating/templating.go:17-21 | `{{query.k}}` is a key iff `k` has a non-empty list of values |
| Templating.BodyPresence | internal/templating/templating.go:30-33 | `{{body}}` is a key iff the body is present |
| Templating.HelloExample | internal/templating/templating.go:10-39 | `hello {{params.name}}` with params `{name: Ann}`, nothing else and no body renders `hello Ann` in every order |
| Templating.BodyWithoutBody | internal/templating/templating.go:30-33 | for any params, query, headers and env, a request without a body leaves `{{body}}` verbatim in every order, since no other token occurs in it |
| Text.SplitJoin | internal/compile/build.go:96 | joining the split parts gives back the text |
| Text.ReplaceAllAbsent | internal/templating/templating.go:36 | replacing a pattern that does not occur changes nothing |
| Server.NormalizePath | internal/server/server.go:182 | the result starts with `/`; a path with a leading `/` is kept, otherwise `/` is prepended |
| Server.NormalizeIdempotent | internal/server/server.go:182 | normalising twice equals normalising once |
| Server.FirstRoute | internal/server/server.go:188-201 | the index of the first route whose method equals the upper-cased method and whose pattern matches, and none when no route does |
| Server.ParamsOf | internal/server/server.go:194-197 | the params map has exactly the route's names as keys |
| Server.ParamsLastWins | internal/server/server.go:195-197 | a name takes the capture at its last position, so a repeated name keeps the later capture |
| Server.BuildParams | internal/server/server.go:194-197 | the fill loop yields `ParamsOf` of the names and captures |
| Server.LookupRoute | internal/server/server.go:186-201 | the route loop finds `FirstRoute`, and for a hit the params built from that route's captures |
| Server.WidgetsLookup | internal/server/server.go:182-201 | `GET /widgets/42` hits the `/widgets/:id` route with `{id: 42}`; a trailing slash or `POST` misses it |
| Server.Roll | internal/server/server.go:253-264 | a percentage of 0 or less never fires and 100 or more always fires; otherwise the generator step modulo 100 compared with the percentage |
| Server.RollInt64 | internal/server/server.go:260-263 | the same outcome using the Go int64 arithmetic of the code |
| Server.RollMonotone | internal/server/server.go:253-264 | a percentage that fires keeps firing when raised, for the same clock |
| Server.Respond | internal/server/server.go:82-251 | unknown key gives 401 before anything; 429 only for a known key, a positive limit and a denial; 404 names the normalised path and means no route hits; a served status is the scenario's, or 200 for 0; a served answer passed the error roll; only selection moves the seed (the converse of each gate is in `Server.Limited429`, `Server.NoRoute404`, `Server.StrictRejects` and `Server.PickedOutcome`) |
| Server.LimiterOnlyWhenLimited | internal/server/server.go:91-99 | with no positive limit the limiter's decision is irrelevant and 429 never occurs |
| Server.KeyBeforeLimit | internal/server/server.go:84-90 | an unknown key answers 401 whatever the limiter says |
| Server.StrictRejects | internal/server/server.go:216-221 | a strict route with a schema that rejects the body answers 400 with the validator's details and selects nothing |
| Server.Limited429 | internal/server/server.go:91-98 | a known key with a positive limit that the limiter denies answers 429, with the generator untouched |
| Server.NoRoute404 | internal/server/server.go:202-205 | past the key and limit gates, a request no route hits answers 404 naming the normalised path, with no scenario selected |
| Server.PickedOutcome | internal/server/server.go:223-247 | past every gate, the first route's pick is served with its status (200 for 0) and the route's params, unless its error rate is positive and the roll fires, which answers 500; the generator makes the pick's step either way |
| Server.ServedFromFirstRoute | internal/server/server.go:178-251 | a served answer comes from the first route hit: its scenario is that route's pick, its params cover exactly the route's names, and it matches with none of smaller priority matching when any scenario matches |
| Server.ScenarioCount | internal/server/server.go:136-140 | the counting loop sums the scenarios of every route |
| Server.CompiledWellShaped | internal/server/server.go:129-134 | every snapshot the compiler produces satisfies the shape the runtime relies on (one name per capture) |
| Server.MockServer.HandleRuntime | internal/server/server.go:178-251 | the handler's answer and generator state are those of `Respond` on the stored snapshot |
| Server.MockServer.HandleImport | internal/server/server.go:106-142 | a compile failure leaves the snapshot unchanged and reports the error; success stores exactly the compiled snapshot and reports its project, its route count (that of the configuration) and its scenario count (defaults excluded) |

## Left out

- HTTP plumbing is not modelled: the Gin engine, route groups, CORS, the request-id middleware, logging, `Run`, the admin-key check and the stub handlers `handleOpenAPI` and `handleLogs`.
- `handleRoutes`, the admin listing of routes, is not modelled: it only projects snapshot fields into JSON.
- Decoding is not modelled. The JSON and YAML decoding of the import body and of the request body comes from library parsers, so the model takes a decoded configuration and an optional decoded object.
- JSON-Schema compilation and validation are parameters (`Tools.schemaError`, `Hooks.validate`) because they belong to a foreign library.
- `json.Marshal` of scenario bodies and of the request body is a parameter (`Tools.marshal`, and `marshal` in templating). Its error is ignored by the code and so by the model.
- Rules.ToString: the `fmt`/`%v` formatting of non-string values (`jsonMarshalSafe`, `fmtAny`) is an uninterpreted function in `Lib`, because it depends on Go's formatting of floats and maps.
- `http.CanonicalHeaderKey` is the uninterpreted `Lib.canonHeader`.
- Clocks and sleeping are not modelled. `time.Now` supplies the generator's initial seed (the constructor parameter of `Rng`), the clock `roll` reads (a parameter) and the `{{now.iso}}` text (a parameter). The `time.Sleep` latency has no observable result here and is left out.
- The rate limiter registry (`internal/ratelimit`) is a boolean decision passed in. The `Retry-After: 60` header of the 429 answer is not modelled.
- `atomic.Value` publication is a plain field of `MockServer`. The model reads one snapshot per request, whereas the code loads it separately in the middleware and in the handler, so a concurrent import between the two is not captured.
- Response bodies and headers are not modelled. `Server.MockServer.HandleRuntime` returns the chosen scenario, the status and the params. Rendering the scenario's headers and body with `Templating.RenderTokens` is modelled and proved on its own but not composed into the handler.
- Text.Upper and Text.Lower map ASCII letters only. Go's `strings.ToUpper` and `strings.ToLower` also map non-ASCII letters.
- Templating.RenderTokens is defined on text. `RenderTokensBytes` only converts bytes to a string and back, so with bytes modelled as text it coincides with `RenderTokens` and has no member of its own.
- Rules.WeightedPick: Go's `int` sums `sum` and `acc` are 64-bit and wrap above 2^63-1, and a sum that wraps to exactly 0 (four weights of 2^62, say) makes `randInt`'s `seed % int64(n)` panic with a division by zero. The model's sums and `Rules.Total` are unbounded, so it always picks and does not model that wrap or that panic.
- Regular expressions are not modelled as such. The pattern `compilePath` builds is the segment list `Pattern.Segment` and its `([^/]+)` groups. Matching is segment by segment, and the regex text itself is `Compile.RegexSource`, whose `regexp.QuoteMeta` is `Compile.QuoteMeta`.
- The Go panic in the route loop is not modelled. It would happen if a route had fewer captures than names, which `Server.WellShaped` excludes and `Server.CompiledWellShaped` proves of every compiled snapshot.
- `cmd/server/main.go`, the bootstrap and environment reading, is not part of this model.

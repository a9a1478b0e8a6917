/**
 * The token renderer (internal/templating/templating.go). `RenderTokens` fills a table from
 * token text to replacement, then runs `strings.ReplaceAll` once per table entry, in Go's
 * map iteration order. That order is unspecified, so it is a parameter here: any listing of
 * the table's keys, each once.
 */
module Templating {
  import opened Wrappers
  import opened Text
  import opened Json

  // ---------------------------------------------------------------------------------------
  // Tokens

  const NowToken: string := "{{now.iso}}"
  const BodyToken: string := "{{body}}"

  /** `"{{" + tag + "." + k + "}}"`, the shape of the parameter, query, header and env tokens. */
  function Token(tag: string, k: string): string {
    "{{" + tag + "." + k + "}}"
  }

  function ParamToken(k: string): string { Token("params", k) }
  function QueryToken(k: string): string { Token("query", k) }
  /** Header tokens use the lower-cased header name. */
  function HeaderToken(k: string): string { Token("header", Lower(k)) }
  function EnvToken(k: string): string { Token("env", k) }

  /** Every token starts with `{{`; the character after it tells the token classes apart. */
  lemma {:induction false} TokenShape(tag: string, k: string)
    requires |tag| > 0
    ensures HasPrefix(Token(tag, k), "{{") && |Token(tag, k)| > 2 && Token(tag, k)[2] == tag[0]
  {
    var t := Token(tag, k);
    assert t[..2] == "{{";
  }

  /** Within one class, different names give different tokens. */
  lemma {:induction false} TokenInjective(tag: string, k1: string, k2: string)
    requires Token(tag, k1) == Token(tag, k2)
    ensures k1 == k2
  {
    var t := Token(tag, k1);
    var n := |tag| + 3;
    assert t[n..|t| - 2] == k1;
    assert Token(tag, k2)[n..|t| - 2] == k2;
  }

  lemma FixedTokens()
    ensures HasPrefix(NowToken, "{{") && NowToken[2] == 'n'
    ensures HasPrefix(BodyToken, "{{") && BodyToken[2] == 'b'
  {
    assert NowToken[..2] == "{{";
    assert BodyToken[..2] == "{{";
  }

  /** `X-Debug` is looked up as `{{header.x-debug}}`. */
  lemma HeaderTokenExample()
    ensures HeaderToken("X-Debug") == "{{header.x-debug}}"
  {
    assert Lower("X-Debug") == "x-debug";
  }

  // ---------------------------------------------------------------------------------------
  // The table

  /** The tokens `"{{" + tag + "." + k + "}}"` for the keys `k` of `m`. */
  function TokenSet(tag: string, m: map<string, string>): set<string> {
    set k | k in m :: Token(tag, k)
  }

  function ParamKeys(params: map<string, string>): set<string> {
    TokenSet("params", params)
  }

  /** Query parameters with an empty value list get no token. */
  function QueryKeys(query: map<string, seq<string>>): set<string> {
    set k | k in query && |query[k]| > 0 :: QueryToken(k)
  }

  /** Headers with an empty value list get no token. */
  function HeaderKeys(headers: map<string, seq<string>>): set<string> {
    set k | k in headers && |headers[k]| > 0 :: HeaderToken(k)
  }

  function EnvKeys(env: map<string, string>): set<string> {
    TokenSet("env", env)
  }

  /** The keys of `repl`: `{{now.iso}}`, one per param, query, header and env entry, and `{{body}}` when there is a body. */
  function TokenKeys(params: map<string, string>, query: map<string, seq<string>>,
                     headers: map<string, seq<string>>, env: map<string, string>, hasBody: bool): set<string>
  {
    {NowToken} + ParamKeys(params) + QueryKeys(query) + HeaderKeys(headers) + EnvKeys(env)
    + (if hasBody then {BodyToken} else {})
  }

  /** Each `k` of `m` maps to `m[k]` under its token. */
  predicate EntriesIn(repl: map<string, string>, tag: string, m: map<string, string>) {
    forall k :: k in m ==> Token(tag, k) in repl && repl[Token(tag, k)] == m[k]
  }

  /** Each query parameter with values maps to its first value. */
  predicate QueryIn(repl: map<string, string>, query: map<string, seq<string>>) {
    forall k :: k in query && |query[k]| > 0 ==> QueryToken(k) in repl && repl[QueryToken(k)] == query[k][0]
  }

  /** `v` is the first value of some header whose lower-cased name gives the token `t`. */
  predicate HeaderValue(headers: map<string, seq<string>>, t: string, v: string) {
    exists k :: k in headers && |headers[k]| > 0 && HeaderToken(k) == t && v == headers[k][0]
  }

  predicate HeadersIn(repl: map<string, string>, headers: map<string, seq<string>>) {
    forall t :: t in HeaderKeys(headers) ==> t in repl && HeaderValue(headers, t, repl[t])
  }

  /** `r2` keeps every entry of `r` whose key is outside `changed`. */
  predicate Keeps(r: map<string, string>, r2: map<string, string>, changed: set<string>) {
    forall t :: t in r && t !in changed ==> t in r2 && r2[t] == r[t]
  }

  /**
   * `repl` is a table `RenderTokens` can build: exactly the token keys; the time for
   * `{{now.iso}}`; each param and env value; the first value of each query parameter; for a
   * header token, the first value of one of the headers that lower-case to it (Go's map order
   * decides which); the serialised body for `{{body}}`.
   */
  predicate IsTokenTable(repl: map<string, string>, now: string, params: map<string, string>,
                         query: map<string, seq<string>>, headers: map<string, seq<string>>,
                         env: map<string, string>, body: Option<map<string, Value>>, marshal: Value -> string)
  {
    && repl.Keys == TokenKeys(params, query, headers, env, body.Some?)
    && NowToken in repl && repl[NowToken] == now
    && EntriesIn(repl, "params", params)
    && QueryIn(repl, query)
    && HeadersIn(repl, headers)
    && EntriesIn(repl, "env", env)
    && (body.Some? ==> BodyToken in repl && repl[BodyToken] == marshal(JObject(body.value)))
  }

  /** `order` lists every key of `keys` exactly once (a Go map iteration order). */
  predicate IsOrdering(order: seq<string>, keys: set<string>) {
    && (forall i :: 0 <= i < |order| ==> order[i] in keys)
    && (forall t :: t in keys ==> t in order)
    && (forall i, j :: 0 <= i < j < |order| ==> order[i] != order[j])
  }

  /** Every key of the table is a token, so it starts with `{{`. */
  predicate TokensOnly(keys: set<string>) {
    forall t :: t in keys ==> HasPrefix(t, "{{")
  }

  /** Every key in `keys` has the class character `c` right after its `{{`. */
  predicate Tagged(keys: set<string>, c: char) {
    forall t :: t in keys ==> HasPrefix(t, "{{") && |t| > 2 && t[2] == c
  }

  lemma {:induction false} TaggedDisjoint(a: set<string>, ca: char, b: set<string>, cb: char)
    requires Tagged(a, ca) && Tagged(b, cb) && ca != cb
    ensures a !! b
  {
    forall t | t in a ensures t !in b {
    }
  }

  /** The token classes are told apart by their third character, so they never share a key. */
  lemma ClassTags(params: map<string, string>, query: map<string, seq<string>>,
                  headers: map<string, seq<string>>, env: map<string, string>)
    ensures Tagged({NowToken}, 'n') && Tagged({BodyToken}, 'b')
    ensures Tagged(ParamKeys(params), 'p') && Tagged(QueryKeys(query), 'q')
    ensures Tagged(HeaderKeys(headers), 'h') && Tagged(EnvKeys(env), 'e')
  {
    FixedTokens();
    SetTags("params", params);
    SetTags("env", env);
    QueryTags(query);
    HeaderTags(headers);
  }

  lemma SetTags(tag: string, m: map<string, string>)
    requires |tag| > 0
    ensures Tagged(TokenSet(tag, m), tag[0])
  {
    forall t | t in TokenSet(tag, m) ensures HasPrefix(t, "{{") && |t| > 2 && t[2] == tag[0] {
      var k :| k in m && t == Token(tag, k);
      TokenShape(tag, k);
    }
  }

  lemma QueryTags(query: map<string, seq<string>>)
    ensures Tagged(QueryKeys(query), 'q')
  {
    forall t | t in QueryKeys(query) ensures HasPrefix(t, "{{") && |t| > 2 && t[2] == 'q' {
      var k :| k in query && |query[k]| > 0 && t == QueryToken(k);
      TokenShape("query", k);
    }
  }

  lemma HeaderTags(headers: map<string, seq<string>>)
    ensures Tagged(HeaderKeys(headers), 'h')
  {
    forall t | t in HeaderKeys(headers) ensures HasPrefix(t, "{{") && |t| > 2 && t[2] == 'h' {
      var k :| k in headers && |headers[k]| > 0 && t == HeaderToken(k);
      TokenShape("header", Lower(k));
    }
  }

  lemma TokenKeysTokens(params: map<string, string>, query: map<string, seq<string>>,
                        headers: map<string, seq<string>>, env: map<string, string>, hasBody: bool)
    ensures TokensOnly(TokenKeys(params, query, headers, env, hasBody))
  {
    ClassTags(params, query, headers, env);
  }

  lemma TableKeys(params: map<string, string>, query: map<string, seq<string>>,
                  headers: map<string, seq<string>>, env: map<string, string>, hasBody: bool)
    ensures TokensOnly(TokenKeys(params, query, headers, env, hasBody))
    ensures NowToken !in ParamKeys(params) + QueryKeys(query) + HeaderKeys(headers) + EnvKeys(env)
    ensures ParamKeys(params) !! QueryKeys(query) && ParamKeys(params) !! HeaderKeys(headers)
    ensures ParamKeys(params) !! EnvKeys(env) && QueryKeys(query) !! HeaderKeys(headers)
    ensures QueryKeys(query) !! EnvKeys(env) && HeaderKeys(headers) !! EnvKeys(env)
    ensures BodyToken !in {NowToken} + ParamKeys(params) + QueryKeys(query) + HeaderKeys(headers) + EnvKeys(env)
  {
    ClassTags(params, query, headers, env);
    var n, b, p, q, h, e := {NowToken}, {BodyToken}, ParamKeys(params), QueryKeys(query), HeaderKeys(headers), EnvKeys(env);
    TaggedDisjoint(n, 'n', p, 'p'); TaggedDisjoint(n, 'n', q, 'q');
    TaggedDisjoint(n, 'n', h, 'h'); TaggedDisjoint(n, 'n', e, 'e');
    TaggedDisjoint(b, 'b', n, 'n'); TaggedDisjoint(b, 'b', p, 'p'); TaggedDisjoint(b, 'b', q, 'q');
    TaggedDisjoint(b, 'b', h, 'h'); TaggedDisjoint(b, 'b', e, 'e');
    TaggedDisjoint(p, 'p', q, 'q'); TaggedDisjoint(p, 'p', h, 'h'); TaggedDisjoint(p, 'p', e, 'e');
    TaggedDisjoint(q, 'q', h, 'h'); TaggedDisjoint(q, 'q', e, 'e'); TaggedDisjoint(h, 'h', e, 'e');
  }

  lemma KeepEntries(r: map<string, string>, r2: map<string, string>, changed: set<string>, tag: string, m: map<string, string>)
    requires Keeps(r, r2, changed) && EntriesIn(r, tag, m) && TokenSet(tag, m) !! changed
    ensures EntriesIn(r2, tag, m)
  {
    forall k | k in m ensures Token(tag, k) in r2 && r2[Token(tag, k)] == m[k] {
      assert Token(tag, k) in TokenSet(tag, m);
    }
  }

  lemma KeepQuery(r: map<string, string>, r2: map<string, string>, changed: set<string>, query: map<string, seq<string>>)
    requires Keeps(r, r2, changed) && QueryIn(r, query) && QueryKeys(query) !! changed
    ensures QueryIn(r2, query)
  {
    forall k | k in query && |query[k]| > 0 ensures QueryToken(k) in r2 && r2[QueryToken(k)] == query[k][0] {
      assert QueryToken(k) in QueryKeys(query);
    }
  }

  lemma KeepHeaders(r: map<string, string>, r2: map<string, string>, changed: set<string>, headers: map<string, seq<string>>)
    requires Keeps(r, r2, changed) && HeadersIn(r, headers) && HeaderKeys(headers) !! changed
    ensures HeadersIn(r2, headers)
  {
  }

  /** `order` lists keys of `repl`, and every key is a token (so none is empty). */
  predicate Drives(repl: map<string, string>, order: seq<string>) {
    TokensOnly(repl.Keys) && forall i :: 0 <= i < |order| ==> order[i] in repl
  }

  /** The fold of `strings.ReplaceAll` over the entries in the order `order`. */
  function ApplyAll(s: string, repl: map<string, string>, order: seq<string>): string
    requires Drives(repl, order)
    decreases |order|
  {
    if order == [] then s
    else
      assert HasPrefix(order[0], "{{");
      ApplyAll(ReplaceAll(s, order[0], repl[order[0]]), repl, order[1..])
  }

  /** Text with no `{{` contains no token, so every replacement leaves it as it is. */
  lemma {:induction false} ApplyAllNoBraces(s: string, repl: map<string, string>, order: seq<string>)
    requires Drives(repl, order)
    requires !Occurs("{{", s)
    ensures ApplyAll(s, repl, order) == s
    decreases |order|
  {
    if order != [] {
      var t := order[0];
      assert HasPrefix(t, "{{");
      if Occurs(t, s) {
        OccursPrefix(t, "{{", s);
      }
      ReplaceAllAbsent(s, t, repl[t]);
      ApplyAllNoBraces(s, repl, order[1..]);
    }
  }

  // ---------------------------------------------------------------------------------------
  // The four table-filling loops

  /** `for k, v := range m { repl["{{" + tag + "." + k + "}}"] = v }` (params and env). */
  method AddEntries(repl: map<string, string>, tag: string, m: map<string, string>) returns (r: map<string, string>)
    ensures r.Keys == repl.Keys + TokenSet(tag, m)
    ensures Keeps(repl, r, TokenSet(tag, m))
    ensures EntriesIn(r, tag, m)
  {
    r := repl;
    var todo := m.Keys;
    while todo != {}
      invariant todo <= m.Keys
      invariant r.Keys == repl.Keys + EntriesDone(tag, m, todo)
      invariant Keeps(repl, r, TokenSet(tag, m))
      invariant forall k :: k in m && k !in todo ==> Token(tag, k) in r && r[Token(tag, k)] == m[k]
      decreases todo
    {
      var k :| k in todo;
      EntriesStep(tag, m, todo, k);
      r := r[Token(tag, k) := m[k]];
      todo := todo - {k};
    }
    assert EntriesDone(tag, m, {}) == TokenSet(tag, m);
  }

  /** The tokens of the names already visited. */
  function EntriesDone(tag: string, m: map<string, string>, todo: set<string>): set<string> {
    set k | k in m && k !in todo :: Token(tag, k)
  }

  /** Visiting `k` adds its token, which no visited name shares. */
  lemma EntriesStep(tag: string, m: map<string, string>, todo: set<string>, k: string)
    requires k in todo && todo <= m.Keys
    ensures EntriesDone(tag, m, todo - {k}) == EntriesDone(tag, m, todo) + {Token(tag, k)}
    ensures Token(tag, k) in TokenSet(tag, m)
    ensures forall k' :: k' in m && k' !in todo ==> Token(tag, k') != Token(tag, k)
  {
    forall k' | k' in m && k' !in todo ensures Token(tag, k') != Token(tag, k) {
      if Token(tag, k') == Token(tag, k) { TokenInjective(tag, k', k); }
    }
  }

  /** `for k, v := range r.URL.Query() { if len(v) > 0 { repl["{{query." + k + "}}"] = v[0] } }` */
  method AddQuery(repl: map<string, string>, query: map<string, seq<string>>) returns (r: map<string, string>)
    ensures r.Keys == repl.Keys + QueryKeys(query)
    ensures Keeps(repl, r, QueryKeys(query))
    ensures QueryIn(r, query)
  {
    r := repl;
    var todo := query.Keys;
    while todo != {}
      invariant todo <= query.Keys
      invariant r.Keys == repl.Keys + QueryDone(query, todo)
      invariant Keeps(repl, r, QueryKeys(query))
      invariant forall k :: k in query && k !in todo && |query[k]| > 0 ==> QueryToken(k) in r && r[QueryToken(k)] == query[k][0]
      decreases todo
    {
      var k :| k in todo;
      QueryStep(query, todo, k);
      if |query[k]| > 0 {
        r := r[QueryToken(k) := query[k][0]];
      }
      todo := todo - {k};
    }
    assert QueryDone(query, {}) == QueryKeys(query);
  }

  /** The query tokens of the names already visited. */
  function QueryDone(query: map<string, seq<string>>, todo: set<string>): set<string> {
    set k | k in query && k !in todo && |query[k]| > 0 :: QueryToken(k)
  }

  lemma QueryStep(query: map<string, seq<string>>, todo: set<string>, k: string)
    requires k in todo && todo <= query.Keys
    ensures |query[k]| > 0 ==> QueryDone(query, todo - {k}) == QueryDone(query, todo) + {QueryToken(k)}
    ensures |query[k]| > 0 ==> QueryToken(k) in QueryKeys(query)
    ensures |query[k]| == 0 ==> QueryDone(query, todo - {k}) == QueryDone(query, todo)
    ensures forall k' :: k' in query && k' !in todo ==> QueryToken(k') != QueryToken(k)
  {
    forall k' | k' in query && k' !in todo ensures QueryToken(k') != QueryToken(k) {
      if QueryToken(k') == QueryToken(k) { TokenInjective("query", k', k); }
    }
  }

  /** The header tokens of the names already visited. */
  function HeadersDone(headers: map<string, seq<string>>, todo: set<string>): set<string> {
    set k | k in headers && k !in todo && |headers[k]| > 0 :: HeaderToken(k)
  }

  /**
   * `for k, v := range r.Header { if len(v) > 0 { repl["{{header." + lower(k) + "}}"] = v[0] } }`:
   * names that lower-case alike share one token, and whichever of them comes last wins.
   */
  method AddHeaders(repl: map<string, string>, headers: map<string, seq<string>>) returns (r: map<string, string>)
    ensures r.Keys == repl.Keys + HeaderKeys(headers)
    ensures Keeps(repl, r, HeaderKeys(headers))
    ensures HeadersIn(r, headers)
  {
    r := repl;
    var todo := headers.Keys;
    while todo != {}
      invariant todo <= headers.Keys
      invariant r.Keys == repl.Keys + HeadersDone(headers, todo)
      invariant Keeps(repl, r, HeaderKeys(headers))
      invariant forall t :: t in HeadersDone(headers, todo) ==> t in r && HeaderValue(headers, t, r[t])
      decreases todo
    {
      var k :| k in todo;
      var before, todo' := r, todo - {k};
      if |headers[k]| > 0 {
        assert HeaderToken(k) in HeaderKeys(headers);
        r := r[HeaderToken(k) := headers[k][0]];
        assert HeaderValue(headers, HeaderToken(k), headers[k][0]);
        assert HeadersDone(headers, todo') == HeadersDone(headers, todo) + {HeaderToken(k)};
      } else {
        assert HeadersDone(headers, todo') == HeadersDone(headers, todo);
      }
      todo := todo';
    }
    assert HeadersDone(headers, {}) == HeaderKeys(headers);
  }

  // ---------------------------------------------------------------------------------------
  // RenderTokens

  /** The first half of `RenderTokens`: the `repl` table, filled class by class. */
  method BuildTable(now: string, params: map<string, string>, query: map<string, seq<string>>,
                    headers: map<string, seq<string>>, env: map<string, string>,
                    body: Option<map<string, Value>>, marshal: Value -> string)
    returns (repl: map<string, string>)
    ensures IsTokenTable(repl, now, params, query, headers, env, body, marshal)
  {
    var r4 := RequestTable(now, params, query, headers, env);
    if body.Some? {
      var p, q, h, e := ParamKeys(params), QueryKeys(query), HeaderKeys(headers), EnvKeys(env);
      TableKeys(params, query, headers, env, true);
      repl := r4[BodyToken := marshal(JObject(body.value))];
      KeepEntries(r4, repl, {BodyToken}, "params", params);
      KeepQuery(r4, repl, {BodyToken}, query);
      KeepHeaders(r4, repl, {BodyToken}, headers);
      KeepEntries(r4, repl, {BodyToken}, "env", env);
      assert repl.Keys == {NowToken} + p + q + h + e + {BodyToken};
    } else {
      repl := r4;
    }
  }

  /** The table before `{{body}}`: the time, then params, query, headers and env. */
  method RequestTable(now: string, params: map<string, string>, query: map<string, seq<string>>,
                      headers: map<string, seq<string>>, env: map<string, string>)
    returns (r4: map<string, string>)
    ensures IsTokenTable(r4, now, params, query, headers, env, None, x => "")
  {
    var r2 := FrontTable(now, params, query);
    var p, q, h, e := ParamKeys(params), QueryKeys(query), HeaderKeys(headers), EnvKeys(env);
    TableKeys(params, query, headers, env, false);
    var r3 := AddHeaders(r2, headers);
    assert r3.Keys == {NowToken} + p + q + h && r3[NowToken] == now;
    KeepEntries(r2, r3, h, "params", params);
    KeepQuery(r2, r3, h, query);
    r4 := AddEntries(r3, "env", env);
    assert r4.Keys == {NowToken} + p + q + h + e && r4[NowToken] == now;
    KeepEntries(r3, r4, e, "params", params);
    KeepQuery(r3, r4, e, query);
    KeepHeaders(r3, r4, e, headers);
  }

  /** The time token, the params and the query parameters. */
  method FrontTable(now: string, params: map<string, string>, query: map<string, seq<string>>)
    returns (r2: map<string, string>)
    ensures r2.Keys == {NowToken} + ParamKeys(params) + QueryKeys(query)
    ensures NowToken in r2 && r2[NowToken] == now
    ensures EntriesIn(r2, "params", params) && QueryIn(r2, query)
  {
    var none: map<string, seq<string>> := map[];
    var nothing: map<string, string> := map[];
    TableKeys(params, query, none, nothing, false);
    var p, q := ParamKeys(params), QueryKeys(query);
    var r0 := map[NowToken := now];
    var r1 := AddEntries(r0, "params", params);
    assert r1.Keys == {NowToken} + p && r1[NowToken] == now;
    r2 := AddQuery(r1, query);
    KeepEntries(r1, r2, q, "params", params);
  }

  /**
   * `RenderTokens(s, params, r, env, body)` with the clock reading `now`, the request's query
   * and headers, `json.Marshal` as `marshal`, and `order` the iteration order of the table.
   * The output is the fold of `ReplaceAll` over some table `RenderTokens` can build; text
   * without `{{` comes back unchanged.
   */
  method RenderTokens(s: string, now: string, params: map<string, string>, query: map<string, seq<string>>,
                      headers: map<string, seq<string>>, env: map<string, string>,
                      body: Option<map<string, Value>>, marshal: Value -> string, order: seq<string>)
    returns (out: string)
    requires IsOrdering(order, TokenKeys(params, query, headers, env, body.Some?))
    ensures exists repl :: IsTokenTable(repl, now, params, query, headers, env, body, marshal)
                           && Drives(repl, order) && out == ApplyAll(s, repl, order)
    ensures !Occurs("{{", s) ==> out == s
  {
    var repl := BuildTable(now, params, query, headers, env, body, marshal);
    TokenKeysTokens(params, query, headers, env, body.Some?);
    OrderCovers(repl, order, TokenKeys(params, query, headers, env, body.Some?));
    out := ApplyEach(s, repl, order);
    if !Occurs("{{", s) {
      ApplyAllNoBraces(s, repl, order);
    }
  }

  /** `for k, v := range repl { out = strings.ReplaceAll(out, k, v) }`, visiting the keys in `order`. */
  method ApplyEach(s: string, repl: map<string, string>, order: seq<string>) returns (out: string)
    requires Drives(repl, order)
    ensures out == ApplyAll(s, repl, order)
  {
    out := s;
    assert order[0..] == order;
    for i := 0 to |order|
      invariant ApplyAll(s, repl, order) == ApplyAll(out, repl, order[i..])
    {
      assert order[i..][0] == order[i] && order[i..][1..] == order[i + 1..];
      assert HasPrefix(order[i], "{{");
      out := ReplaceAll(out, order[i], repl[order[i]]);
    }
    assert order[|order|..] == [];
  }

  /** An ordering of a table's keys can drive the fold over it. */
  lemma OrderCovers(repl: map<string, string>, order: seq<string>, keys: set<string>)
    requires repl.Keys == keys && IsOrdering(order, keys) && TokensOnly(keys)
    ensures Drives(repl, order)
  {
  }

  // ---------------------------------------------------------------------------------------
  // Consequences

  /** A param token is in the table exactly when that param is given. */
  lemma ParamPresence(params: map<string, string>, query: map<string, seq<string>>,
                      headers: map<string, seq<string>>, env: map<string, string>, hasBody: bool, k: string)
    ensures ParamToken(k) in TokenKeys(params, query, headers, env, hasBody) <==> k in params
  {
    var pt := ParamToken(k);
    TokenShape("params", k);
    ClassTags(params, query, headers, env);
    FixedTokens();
    assert pt !in QueryKeys(query) && pt !in HeaderKeys(headers) && pt !in EnvKeys(env);
    assert pt != NowToken && pt != BodyToken;
    if pt in ParamKeys(params) {
      assert pt in TokenSet("params", params);
      var k' :| k' in params && pt == Token("params", k');
      TokenInjective("params", k, k');
    }
  }

  /** An env token is in the table exactly when that variable is set. */
  lemma EnvPresence(params: map<string, string>, query: map<string, seq<string>>,
                    headers: map<string, seq<string>>, env: map<string, string>, hasBody: bool, k: string)
    ensures EnvToken(k) in TokenKeys(params, query, headers, env, hasBody) <==> k in env
  {
    var et := EnvToken(k);
    TokenShape("env", k);
    ClassTags(params, query, headers, env);
    FixedTokens();
    assert et !in ParamKeys(params) && et !in QueryKeys(query) && et !in HeaderKeys(headers);
    assert et != NowToken && et != BodyToken;
    if et in EnvKeys(env) {
      assert et in TokenSet("env", env);
      var k' :| k' in env && et == Token("env", k');
      TokenInjective("env", k, k');
    }
  }

  /** A query token is in the table exactly when that parameter has a value. */
  lemma QueryPresence(params: map<string, string>, query: map<string, seq<string>>,
                      headers: map<string, seq<string>>, env: map<string, string>, hasBody: bool, k: string)
    ensures QueryToken(k) in TokenKeys(params, query, headers, env, hasBody) <==> k in query && |query[k]| > 0
  {
    var qt := QueryToken(k);
    TokenShape("query", k);
    ClassTags(params, query, headers, env);
    FixedTokens();
    assert qt !in ParamKeys(params) && qt !in HeaderKeys(headers) && qt !in EnvKeys(env);
    assert qt != NowToken && qt != BodyToken;
    if qt in QueryKeys(query) {
      var k' :| k' in query && |query[k']| > 0 && qt == QueryToken(k');
      TokenInjective("query", k, k');
    }
  }

  /** `{{body}}` is in the table exactly when there is a body. */
  lemma BodyPresence(params: map<string, string>, query: map<string, seq<string>>,
                     headers: map<string, seq<string>>, env: map<string, string>, hasBody: bool)
    ensures BodyToken in TokenKeys(params, query, headers, env, hasBody) <==> hasBody
  {
    TableKeys(params, query, headers, env, hasBody);
  }

  /** The fold over any order drawn from the time token and `{{params.name}}`, from the example text. */
  lemma {:induction false} HelloFold(x: string, now: string, repl: map<string, string>, order: seq<string>)
    requires TokensOnly(repl.Keys) && NowToken in repl && "{{params.name}}" in repl
    requires repl[NowToken] == now && repl["{{params.name}}"] == "Ann"
    requires forall i :: 0 <= i < |order| ==> order[i] == NowToken || order[i] == "{{params.name}}"
    requires x == "hello {{params.name}}" || x == "hello Ann"
    ensures ApplyAll(x, repl, order) ==
              if x == "hello Ann" || "{{params.name}}" in order then "hello Ann" else x
    decreases |order|
  {
    var tp := "{{params.name}}";
    if order != [] {
      HelloSteps(now);
      var t := order[0];
      var y := ReplaceAll(x, t, repl[t]);
      HelloFold(y, now, repl, order[1..]);
      assert tp in order <==> t == tp || tp in order[1..];
    }
  }

  /** A token is left alone by a replacement for a token of another class. */
  lemma {:induction false} OtherClassKept(r: string, pat: string, rep: string)
    requires |pat| >= 3 && pat[0] == '{' && pat[1] == '{'
    requires r != [] && r[0] != pat[2] && '{' !in r
    ensures ReplaceAll("{{" + r, pat, rep) == "{{" + r
  {
    var s1 := "{" + r;
    var s0 := "{" + s1;
    assert s0 == "{{" + r;
    ReplaceAllSkip(r, [], pat, rep);
    assert r + [] == r;
    if |s1| >= |pat| {
      assert s1[..|pat|][1] == r[0];
      assert s1[..|pat|] != pat;
      assert s1[1..] == r;
    }
    assert ReplaceAll(s1, pat, rep) == s1;
    if |s0| >= |pat| {
      assert s0[..|pat|][2] == r[0];
      assert s0[..|pat|] != pat;
      assert s0[1..] == s1;
    }
  }

  /** The time token does not occur inside `{{params.name}}`. */
  lemma NowSkipsParamName(now: string)
    ensures ReplaceAll("{{params.name}}", NowToken, now) == "{{params.name}}"
  {
    var rest := "params.name}}";
    assert "{{params.name}}" == "{{" + rest;
    assert '{' !in rest;
    FixedTokens();
    OtherClassKept(rest, NowToken, now);
  }

  lemma HelloStepParam()
    ensures ReplaceAll("hello {{params.name}}", "{{params.name}}", "Ann") == "hello Ann"
  {
    var tp := "{{params.name}}";
    assert "hello {{params.name}}" == "hello " + tp;
    assert '{' !in "hello ";
    ReplaceAllSkip("hello ", tp, tp, "Ann");
    ReplaceAllFront(tp, "", "Ann");
    assert tp + "" == tp;
    assert "hello " + ("Ann" + "") == "hello Ann";
  }

  lemma HelloStepNow(now: string)
    ensures ReplaceAll("hello {{params.name}}", NowToken, now) == "hello {{params.name}}"
  {
    var tp := "{{params.name}}";
    assert "hello {{params.name}}" == "hello " + tp;
    assert '{' !in "hello ";
    FixedTokens();
    ReplaceAllSkip("hello ", tp, NowToken, now);
    NowSkipsParamName(now);
  }

  /** Text without `{` is left alone by any token. */
  lemma PlainText(s: string, t: string, rep: string)
    requires |t| > 0 && t[0] == '{' && '{' !in s
    ensures ReplaceAll(s, t, rep) == s
  {
    ReplaceAllSkip(s, "", t, rep);
    assert s + "" == s;
  }

  /** Each single replacement on the example texts. */
  lemma HelloSteps(now: string)
    ensures ReplaceAll("hello {{params.name}}", "{{params.name}}", "Ann") == "hello Ann"
    ensures ReplaceAll("hello Ann", "{{params.name}}", "Ann") == "hello Ann"
    ensures ReplaceAll("hello {{params.name}}", NowToken, now) == "hello {{params.name}}"
    ensures ReplaceAll("hello Ann", NowToken, now) == "hello Ann"
  {
    HelloStepParam();
    HelloStepNow(now);
    FixedTokens();
    assert '{' !in "hello Ann";
    PlainText("hello Ann", "{{params.name}}", "Ann");
    PlainText("hello Ann", NowToken, now);
  }

  /**
   * `hello {{params.name}}` with the single param `name = Ann`, no query, headers, env or body,
   * renders as `hello Ann` whatever the clock reads and in either table order.
   */
  lemma HelloExample(now: string, marshal: Value -> string, repl: map<string, string>, order: seq<string>)
    requires IsTokenTable(repl, now, map["name" := "Ann"], map[], map[], map[], None, marshal)
    requires IsOrdering(order, TokenKeys(map["name" := "Ann"], map[], map[], map[], false))
    ensures Drives(repl, order)
    ensures ApplyAll("hello {{params.name}}", repl, order) == "hello Ann"
  {
    HelloKeys();
    var tp := "{{params.name}}";
    assert repl[Token("params", "name")] == "Ann";
    assert tp in order;
    HelloFold("hello {{params.name}}", now, repl, order);
  }

  /** The table keys of the example: the time token and `{{params.name}}`. */
  lemma HelloKeys()
    ensures Token("params", "name") == "{{params.name}}"
    ensures TokenKeys(map["name" := "Ann"], map[], map[], map[], false) == {NowToken, "{{params.name}}"}
    ensures TokensOnly({NowToken, "{{params.name}}"})
  {
    var params: map<string, string> := map["name" := "Ann"];
    var none: map<string, seq<string>> := map[];
    var nothing: map<string, string> := map[];
    var tp := Token("params", "name");
    assert tp == "{{params.name}}";
    assert ParamKeys(params) == {tp};
    assert QueryKeys(none) == {} && HeaderKeys(none) == {} && EnvKeys(nothing) == {};
    TokenKeysTokens(params, none, none, nothing, false);
  }

  /**
   * Without a body there is no `{{body}}` entry: whatever the params, query, headers and env,
   * the text `{{body}}` renders as itself in every order.
   */
  lemma BodyWithoutBody(now: string, params: map<string, string>, query: map<string, seq<string>>,
                        headers: map<string, seq<string>>, env: map<string, string>,
                        marshal: Value -> string, repl: map<string, string>, order: seq<string>)
    requires IsTokenTable(repl, now, params, query, headers, env, None, marshal)
    requires IsOrdering(order, TokenKeys(params, query, headers, env, false))
    ensures Drives(repl, order)
    ensures ApplyAll(BodyToken, repl, order) == BodyToken
  {
    var keys := TokenKeys(params, query, headers, env, false);
    ClassTags(params, query, headers, env);
    TokenKeysTokens(params, query, headers, env, false);
    OrderCovers(repl, order, keys);
    forall i | 0 <= i < |order| ensures HasPrefix(order[i], "{{") && |order[i]| > 2 && order[i][2] != 'b' {
      assert order[i] in keys;
    }
    NoBodyFold(repl, order);
  }

  /** A fold over keys none of which is of the body class leaves the text `{{body}}` alone. */
  lemma {:induction false} NoBodyFold(repl: map<string, string>, order: seq<string>)
    requires Drives(repl, order)
    requires forall i :: 0 <= i < |order| ==> HasPrefix(order[i], "{{") && |order[i]| > 2 && order[i][2] != 'b'
    ensures ApplyAll(BodyToken, repl, order) == BodyToken
    decreases |order|
  {
    if order != [] {
      NotInBody(order[0]);
      ReplaceAllAbsent(BodyToken, order[0], repl[order[0]]);
      NoBodyFold(repl, order[1..]);
    }
  }

  /** A token of any class other than the body's does not occur in `{{body}}`. */
  lemma NotInBody(t: string)
    requires HasPrefix(t, "{{") && |t| > 2 && t[2] != 'b'
    ensures !Occurs(t, BodyToken)
  {
    var b := BodyToken;
    assert b == ['{', '{', 'b', 'o', 'd', 'y', '}', '}'];
    if |t| <= |b| {
      assert b[..|t|][2] == 'b';
      if |t| <= |b[1..]| {
        assert b[1..][..|t|][1] == 'b';
      }
      assert b[1..][1..] == b[2..] == ['b', 'o', 'd', 'y', '}', '}'];
      BraceFree(t, b[2..]);
    }
  }

  /** A token, which starts with `{`, does not occur in text without `{`. */
  lemma {:induction false} BraceFree(t: string, s: string)
    requires |t| > 0 && t[0] == '{' && '{' !in s
    ensures !Occurs(t, s)
    decreases |s|
  {
    if |t| <= |s| {
      assert s[..|t|][0] == s[0];
      assert forall c :: c in s[1..] ==> c in s;
      BraceFree(t, s[1..]);
    }
  }


}

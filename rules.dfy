/**
 * The rule evaluator and the scenario selector (internal/rules/rules.go).
 *
 * Each loop of the source is a method proved equal to a specification function; the
 * specification functions are the ones the lemmas talk about.
 */
module Rules {
  import opened Wrappers
  import opened Json
  import opened Config
  import opened Snapshot
  import opened Text

  /**
   * The library behaviour the evaluator depends on and that is not modelled:
   * `fmtValue` is the `fmt`-based rendering `toString` uses for every non-string value,
   * `canonHeader` is `http.CanonicalHeaderKey`.
   */
  datatype Lib = Lib(fmtValue: Value -> string, canonHeader: string -> string)

  /** `toString`: a string is itself; everything else goes through the `fmt` rendering. */
  function ToString(lib: Lib, v: Value): (s: string)
    ensures v.JString? ==> s == v.s
    ensures !v.JString? ==> s == lib.fmtValue(v)
  {
    if v.JString? then v.s else lib.fmtValue(v)
  }

  // ---------------------------------------------------------------------------------------
  // Conditions

  /** The `allowed` set of a `$in` list. */
  function Allowed(lib: Lib, xs: seq<Value>): set<string> {
    set x | x in xs :: ToString(lib, x)
  }

  /**
   * What `checkCond(vals, c)` decides: a present `$eq` needs a first value equal to it;
   * a non-empty `$in` needs some value among the allowed strings.
   */
  predicate CondHolds(lib: Lib, vals: seq<string>, c: Cond) {
    && (!c.eq.JNull? ==> |vals| > 0 && vals[0] == ToString(lib, c.eq))
    && (|c.inList| > 0 ==> exists i :: 0 <= i < |vals| && vals[i] in Allowed(lib, c.inList))
  }

  method CheckCond(lib: Lib, vals: seq<string>, c: Cond) returns (ok: bool)
    ensures ok == CondHolds(lib, vals, c)
  {
    if !c.eq.JNull? {
      if |vals| == 0 || vals[0] != ToString(lib, c.eq) {
        return false;
      }
    }
    if |c.inList| > 0 {
      var allowed: set<string> := {};
      for k := 0 to |c.inList|
        invariant allowed == Allowed(lib, c.inList[..k])
      {
        assert c.inList[..k + 1] == c.inList[..k] + [c.inList[k]];
        allowed := allowed + {ToString(lib, c.inList[k])};
      }
      assert c.inList[..|c.inList|] == c.inList;
      var hit := false;
      var i := 0;
      while i < |vals|
        invariant 0 <= i <= |vals|
        invariant !hit
        invariant forall j :: 0 <= j < i ==> vals[j] !in allowed
      {
        if vals[i] in allowed {
          hit := true;
          break;
        }
        i := i + 1;
      }
      if !hit {
        return false;
      }
    }
    return true;
  }

  // ---------------------------------------------------------------------------------------
  // Dotted body paths

  /** The last position of `c` in `s`, or -1. */
  function LastIndexOf(s: string, c: char): (k: int)
    ensures -1 <= k < |s|
    ensures k >= 0 ==> s[k] == c && forall j :: k < j < |s| ==> s[j] != c
    ensures k == -1 ==> c !in s
    decreases |s|
  {
    if |s| == 0 then -1
    else if s[|s| - 1] == c then |s| - 1
    else LastIndexOf(s[..|s| - 1], c)
  }

  /**
   * A full match of `idxRe = ^(.+)\[(\d+)\]$` on `seg`, with `name` and `digits` the two
   * groups. Go's `.` does not match a newline; `\d` is an ASCII digit.
   */
  predicate IndexedForm(seg: string, name: string, digits: string) {
    && seg == name + "[" + digits + "]"
    && |name| >= 1 && '\n' !in name
    && |digits| >= 1 && AllDigits(digits)
  }

  /** `idxRe.FindStringSubmatch(seg)` followed by `strconv.Atoi` of the second group. */
  function ParseIndexed(seg: string): Option<(string, nat)> {
    var k := LastIndexOf(seg, '[');
    if 1 <= k && k + 3 <= |seg| && seg[|seg| - 1] == ']' && '\n' !in seg[..k]
       && AllDigits(seg[k + 1..|seg| - 1])
    then Some((seg[..k], Decimal(seg[k + 1..|seg| - 1])))
    else None
  }

  /** The parse accepts exactly the segments the regex matches, and returns its groups. */
  lemma ParseIndexedMatchesRegex(seg: string)
    ensures ParseIndexed(seg).Some? <==> exists name, digits :: IndexedForm(seg, name, digits)
    ensures forall name, digits :: IndexedForm(seg, name, digits) ==>
              ParseIndexed(seg) == Some((name, Decimal(digits)))
  {
    var k := LastIndexOf(seg, '[');
    if ParseIndexed(seg).Some? {
      var name, digits := seg[..k], seg[k + 1..|seg| - 1];
      assert seg == name + "[" + digits + "]";
      assert IndexedForm(seg, name, digits);
    }
    forall name, digits | IndexedForm(seg, name, digits)
      ensures ParseIndexed(seg) == Some((name, Decimal(digits)))
    {
      assert seg[|name|] == '[';
      forall j | |name| < j < |seg| ensures seg[j] != '[' {
        if j < |seg| - 1 {
          assert seg[j] == digits[j - |name| - 1];
        }
      }
      assert k == |name|;
      assert seg[..k] == name;
      assert seg[k + 1..|seg| - 1] == digits;
    }
  }

  /** One step of `getDot` into an object: an indexed segment or a plain key. */
  function Step(fields: map<string, Value>, seg: string): Value {
    match ParseIndexed(seg)
    case Some((name, i)) =>
      if name in fields && fields[name].JArray? && i < |fields[name].items|
      then fields[name].items[i]
      else JNull
    case None =>
      if seg in fields then fields[seg] else JNull
  }

  /** Following the segments from `cur`; any step from a non-object gives `JNull`. */
  function Lookup(cur: Value, segs: seq<string>): Value
    decreases |segs|
  {
    if segs == [] then cur
    else if !cur.JObject? then JNull
    else Lookup(Step(cur.fields, segs[0]), segs[1..])
  }

  /** A path can be followed piecewise: looking up `a + b` is looking up `b` from where `a` ends. */
  lemma {:induction false} LookupAppend(cur: Value, a: seq<string>, b: seq<string>)
    ensures Lookup(cur, a + b) == Lookup(Lookup(cur, a), b)
    decreases |a|
  {
    if a == [] {
      assert a + b == b;
    } else if !cur.JObject? {
      assert (a + b)[0] == a[0];
      if b != [] {
        assert Lookup(JNull, b) == JNull;
      }
    } else {
      assert (a + b)[0] == a[0] && (a + b)[1..] == a[1..] + b;
      LookupAppend(Step(cur.fields, a[0]), a[1..], b);
    }
  }

  /** The object a body condition is evaluated against; Go's nil map reads as empty. */
  function BodyFields(body: Option<map<string, Value>>): map<string, Value> {
    if body.Some? then body.value else map[]
  }

  /** `getDot(body, path)`: the dotted path split on `.` and followed from the body. */
  function DotLookup(body: Option<map<string, Value>>, path: string): Value {
    Lookup(JObject(BodyFields(body)), Split(path, '.'))
  }

  method GetDot(m: map<string, Value>, path: string) returns (v: Value)
    ensures v == Lookup(JObject(m), Split(path, '.'))
  {
    var segs := Split(path, '.');
    var cur := JObject(m);
    for i := 0 to |segs|
      invariant Lookup(JObject(m), segs) == Lookup(cur, segs[i..])
    {
      assert segs[i..][0] == segs[i] && segs[i..][1..] == segs[i + 1..];
      if cur.JObject? {
        var mm := cur.fields;
        var seg := segs[i];
        match ParseIndexed(seg)
        case Some((name, idx)) =>
          if !(name in mm && mm[name].JArray?) {
            return JNull;
          }
          var arr := mm[name].items;
          if idx >= |arr| {
            return JNull;
          }
          cur := arr[idx];
        case None =>
          cur := if seg in mm then mm[seg] else JNull;
      } else {
        return JNull;
      }
    }
    return cur;
  }

  // ---------------------------------------------------------------------------------------
  // Rule trees

  predicate QueryHolds(lib: Lib, conds: map<string, Cond>, q: map<string, seq<string>>) {
    forall k :: k in conds ==> CondHolds(lib, ValuesOf(q, k), conds[k])
  }

  predicate HeadersHold(lib: Lib, conds: map<string, Cond>, h: map<string, seq<string>>) {
    forall k :: k in conds ==> CondHolds(lib, ValuesOf(h, lib.canonHeader(k)), conds[k])
  }

  /** A body condition always sees exactly one value, the string of the looked-up path. */
  predicate BodyHolds(lib: Lib, conds: map<string, Cond>, body: Option<map<string, Value>>) {
    forall path :: path in conds ==> CondHolds(lib, [ToString(lib, DotLookup(body, path))], conds[path])
  }

  /** `rulesOK`: no rules always match; otherwise every query, header and body condition holds. */
  predicate RulesHold(lib: Lib, m: Option<MatchRules>, ctx: MatchContext) {
    m.None? ||
    (QueryHolds(lib, m.value.query, ctx.query)
     && HeadersHold(lib, m.value.headers, ctx.headers)
     && BodyHolds(lib, m.value.body, ctx.body))
  }

  /** The conditions are visited in an arbitrary order (Go map iteration); the result does not depend on it. */
  method CondsQuery(lib: Lib, conds: map<string, Cond>, q: map<string, seq<string>>) returns (ok: bool)
    ensures ok == QueryHolds(lib, conds, q)
  {
    var todo := conds.Keys;
    while todo != {}
      invariant todo <= conds.Keys
      invariant forall k :: k in conds && k !in todo ==> CondHolds(lib, ValuesOf(q, k), conds[k])
      decreases todo
    {
      var k :| k in todo;
      var hit := CheckCond(lib, ValuesOf(q, k), conds[k]);
      if !hit {
        return false;
      }
      todo := todo - {k};
    }
    return true;
  }

  method CondsHeader(lib: Lib, conds: map<string, Cond>, h: map<string, seq<string>>) returns (ok: bool)
    ensures ok == HeadersHold(lib, conds, h)
  {
    var todo := conds.Keys;
    while todo != {}
      invariant todo <= conds.Keys
      invariant forall k :: k in conds && k !in todo ==> CondHolds(lib, ValuesOf(h, lib.canonHeader(k)), conds[k])
      decreases todo
    {
      var k :| k in todo;
      var hit := CheckCond(lib, ValuesOf(h, lib.canonHeader(k)), conds[k]);
      if !hit {
        return false;
      }
      todo := todo - {k};
    }
    return true;
  }

  method CondsBody(lib: Lib, conds: map<string, Cond>, body: Option<map<string, Value>>) returns (ok: bool)
    ensures ok == BodyHolds(lib, conds, body)
  {
    var todo := conds.Keys;
    while todo != {}
      invariant todo <= conds.Keys
      invariant forall p :: p in conds && p !in todo ==> CondHolds(lib, [ToString(lib, DotLookup(body, p))], conds[p])
      decreases todo
    {
      var path :| path in todo;
      var v := GetDot(BodyFields(body), path);
      var hit := CheckCond(lib, [ToString(lib, v)], conds[path]);
      if !hit {
        return false;
      }
      todo := todo - {path};
    }
    return true;
  }

  method RulesOK(lib: Lib, m: Option<MatchRules>, ctx: MatchContext) returns (ok: bool)
    ensures ok == RulesHold(lib, m, ctx)
  {
    if m.None? {
      return true;
    }
    ok := CondsQuery(lib, m.value.query, ctx.query);
    if !ok {
      return;
    }
    ok := CondsHeader(lib, m.value.headers, ctx.headers);
    if !ok {
      return;
    }
    ok := CondsBody(lib, m.value.body, ctx.body);
  }

  // ---------------------------------------------------------------------------------------
  // Stable sort by priority (`sort.SliceStable`)

  predicate SortedByPriority(s: seq<CompiledScenario>) {
    forall i, j :: 0 <= i < j < |s| ==> s[i].priority <= s[j].priority
  }

  /** The scenarios of priority `p`, in their order in `s`. */
  function WithPriority(s: seq<CompiledScenario>, p: int): seq<CompiledScenario>
    decreases |s|
  {
    if s == [] then []
    else (if s[0].priority == p then [s[0]] else []) + WithPriority(s[1..], p)
  }

  /** Inserting `x` ahead of every element of equal or larger priority. */
  function InsertStable(x: CompiledScenario, s: seq<CompiledScenario>): (r: seq<CompiledScenario>)
    requires SortedByPriority(s)
    ensures SortedByPriority(r)
    ensures multiset(r) == multiset(s) + multiset{x}
    decreases |s|
  {
    if s == [] || x.priority <= s[0].priority then
      ConsSorted(x, s);
      [x] + s
    else
      var tail := InsertStable(x, s[1..]);
      TailBound(x, s, tail);
      ConsSorted(s[0], tail);
      assert s == [s[0]] + s[1..];
      [s[0]] + tail
  }

  /** A head no larger than every element keeps a sorted list sorted. */
  lemma ConsSorted(h: CompiledScenario, s: seq<CompiledScenario>)
    requires SortedByPriority(s)
    requires forall e :: e in s ==> h.priority <= e.priority
    ensures SortedByPriority([h] + s)
  {
    var r := [h] + s;
    forall i, j | 0 <= i < j < |r| ensures r[i].priority <= r[j].priority {
      assert r[j] == s[j - 1];
      if i > 0 { assert r[i] == s[i - 1]; }
    }
  }

  /** Elements of the insertion into the tail are no smaller than the head, when `x` is not. */
  lemma TailBound(x: CompiledScenario, s: seq<CompiledScenario>, tail: seq<CompiledScenario>)
    requires SortedByPriority(s) && s != [] && s[0].priority < x.priority
    requires multiset(tail) == multiset(s[1..]) + multiset{x}
    ensures forall e :: e in tail ==> s[0].priority <= e.priority
  {
    forall e | e in tail ensures s[0].priority <= e.priority {
      assert e in multiset(tail);
      if e != x {
        assert e in multiset(s[1..]);
        var i :| 0 <= i < |s[1..]| && s[1..][i] == e;
        assert s[i + 1] == e;
      }
    }
  }

  /** Insertion keeps the order of every priority class, with `x` in front of its own class. */
  lemma {:induction false} InsertStableClasses(x: CompiledScenario, s: seq<CompiledScenario>, p: int)
    requires SortedByPriority(s)
    ensures WithPriority(InsertStable(x, s), p) == if x.priority == p then [x] + WithPriority(s, p) else WithPriority(s, p)
    decreases |s|
  {
    var r := InsertStable(x, s);
    if s == [] || x.priority <= s[0].priority {
      assert r[0] == x && r[1..] == s;
    } else {
      var tail := InsertStable(x, s[1..]);
      assert r[0] == s[0] && r[1..] == tail;
      InsertStableClasses(x, s[1..], p);
    }
  }

  /**
   * `sort.SliceStable(scs, by priority)`: sorted, a permutation, and stable: for every priority
   * the scenarios of that priority keep their relative order.
   */
  function SortByPriority(s: seq<CompiledScenario>): (r: seq<CompiledScenario>)
    ensures SortedByPriority(r)
    ensures multiset(r) == multiset(s)
    ensures forall p :: WithPriority(r, p) == WithPriority(s, p)
    decreases |s|
  {
    if s == [] then []
    else
      assert s == [s[0]] + s[1..];
      var rest := SortByPriority(s[1..]);
      assert forall p :: WithPriority(InsertStable(s[0], rest), p) == WithPriority(s, p) by {
        forall p ensures WithPriority(InsertStable(s[0], rest), p) == WithPriority(s, p) {
          InsertStableClasses(s[0], rest, p);
        }
      }
      InsertStable(s[0], rest)
  }

  // ---------------------------------------------------------------------------------------
  // Priority groups

  predicate Matches(lib: Lib, x: CompiledScenario, ctx: MatchContext) {
    RulesHold(lib, x.matchRules, ctx)
  }

  /** The scenarios whose rules hold, in order (the `candidates` of a group). */
  function Matching(lib: Lib, s: seq<CompiledScenario>, ctx: MatchContext): seq<CompiledScenario>
    decreases |s|
  {
    if s == [] then []
    else (if Matches(lib, s[0], ctx) then [s[0]] else []) + Matching(lib, s[1..], ctx)
  }

  /** The length of the leading run of scenarios with priority `p`. */
  function RunLength(s: seq<CompiledScenario>, p: int): (n: nat)
    ensures n <= |s|
    ensures |s| > 0 && s[0].priority == p ==> n >= 1
    decreases |s|
  {
    if s == [] || s[0].priority != p then 0 else 1 + RunLength(s[1..], p)
  }

  /** The candidates of the first equal-priority group that has any match, or `[]`. */
  function FirstMatchingGroup(lib: Lib, s: seq<CompiledScenario>, ctx: MatchContext): seq<CompiledScenario>
    decreases |s|
  {
    if s == [] then []
    else
      var n := RunLength(s, s[0].priority);
      var c := Matching(lib, s[..n], ctx);
      if c != [] then c else FirstMatchingGroup(lib, s[n..], ctx)
  }

  lemma {:induction false} WithPriorityConcat(a: seq<CompiledScenario>, b: seq<CompiledScenario>, p: int)
    ensures WithPriority(a + b, p) == WithPriority(a, p) + WithPriority(b, p)
    decreases |a|
  {
    if a == [] {
      assert a + b == b;
    } else {
      var ab := a + b;
      assert ab[0] == a[0] && ab[1..] == a[1..] + b;
      WithPriorityConcat(a[1..], b, p);
      var h: seq<CompiledScenario> := if a[0].priority == p then [a[0]] else [];
      assert WithPriority(ab, p) == h + WithPriority(a[1..] + b, p);
      assert WithPriority(a, p) == h + WithPriority(a[1..], p);
      assert h + (WithPriority(a[1..], p) + WithPriority(b, p)) == (h + WithPriority(a[1..], p)) + WithPriority(b, p);
    }
  }

  lemma {:induction false} MatchingConcat(lib: Lib, a: seq<CompiledScenario>, b: seq<CompiledScenario>, ctx: MatchContext)
    ensures Matching(lib, a + b, ctx) == Matching(lib, a, ctx) + Matching(lib, b, ctx)
    decreases |a|
  {
    if a == [] {
      assert a + b == b;
    } else {
      assert (a + b)[0] == a[0] && (a + b)[1..] == a[1..] + b;
      MatchingConcat(lib, a[1..], b, ctx);
    }
  }

  lemma {:induction false} MatchingEmpty(lib: Lib, s: seq<CompiledScenario>, ctx: MatchContext)
    ensures Matching(lib, s, ctx) == [] <==> forall y :: y in s ==> !Matches(lib, y, ctx)
    decreases |s|
  {
    if s != [] {
      MatchingEmpty(lib, s[1..], ctx);
      assert forall y :: y in s <==> y == s[0] || y in s[1..];
    }
  }

  lemma {:induction false} MatchingMembers(lib: Lib, s: seq<CompiledScenario>, ctx: MatchContext)
    ensures forall y :: y in Matching(lib, s, ctx) ==> y in s && Matches(lib, y, ctx)
    decreases |s|
  {
    if s != [] {
      MatchingMembers(lib, s[1..], ctx);
    }
  }

  lemma {:induction false} WithPriorityAll(s: seq<CompiledScenario>, p: int)
    requires forall i :: 0 <= i < |s| ==> s[i].priority == p
    ensures WithPriority(s, p) == s
    decreases |s|
  {
    if s != [] {
      WithPriorityAll(s[1..], p);
      assert s == [s[0]] + s[1..];
    }
  }

  lemma {:induction false} WithPriorityNone(s: seq<CompiledScenario>, p: int)
    requires forall i :: 0 <= i < |s| ==> s[i].priority != p
    ensures WithPriority(s, p) == []
    decreases |s|
  {
    if s != [] {
      WithPriorityNone(s[1..], p);
    }
  }

  lemma {:induction false} RunLengthSpan(s: seq<CompiledScenario>, p: int)
    ensures forall i :: 0 <= i < RunLength(s, p) ==> s[i].priority == p
    ensures RunLength(s, p) < |s| ==> s[RunLength(s, p)].priority != p
    decreases |s|
  {
    if s != [] && s[0].priority == p {
      RunLengthSpan(s[1..], p);
    }
  }

  /** A sorted list splits after its leading run into that run and a sorted rest of larger priority. */
  lemma SortedRunSplit(s: seq<CompiledScenario>)
    requires SortedByPriority(s) && s != []
    ensures var n := RunLength(s, s[0].priority);
      && 1 <= n
      && (forall i :: 0 <= i < n ==> s[i].priority == s[0].priority)
      && (forall i :: n <= i < |s| ==> s[i].priority > s[0].priority)
      && SortedByPriority(s[n..])
  {
    var p0, n := s[0].priority, RunLength(s, s[0].priority);
    RunLengthSpan(s, p0);
    AfterRun(s, n);
    SortedSuffix(s, n);
  }

  /** In a sorted list, everything after a leading run of the head's priority is larger. */
  lemma AfterRun(s: seq<CompiledScenario>, n: nat)
    requires SortedByPriority(s) && 0 < n <= |s|
    requires n < |s| ==> s[n].priority != s[0].priority
    ensures forall i :: n <= i < |s| ==> s[i].priority > s[0].priority
  {
    forall i | n <= i < |s| ensures s[i].priority > s[0].priority {
      assert s[0].priority <= s[n].priority <= s[i].priority;
    }
  }

  lemma SortedSuffix(s: seq<CompiledScenario>, n: nat)
    requires SortedByPriority(s) && n <= |s|
    ensures SortedByPriority(s[n..])
  {
    var tail := s[n..];
    forall i, j | 0 <= i < j < |tail| ensures tail[i].priority <= tail[j].priority {
      assert tail[i] == s[n + i] && tail[j] == s[n + j];
    }
  }

  /** On a sorted list the leading run is the whole class of the head's priority. */
  lemma RunIsClass(s: seq<CompiledScenario>, q: int)
    requires SortedByPriority(s) && s != []
    ensures WithPriority(s, s[0].priority) == s[..RunLength(s, s[0].priority)]
    ensures q != s[0].priority ==> WithPriority(s, q) == WithPriority(s[RunLength(s, s[0].priority)..], q)
  {
    var p0 := s[0].priority;
    var n := RunLength(s, p0);
    var head, tail := s[..n], s[n..];
    SortedRunSplit(s);
    assert s == head + tail;
    WithPriorityAll(head, p0);
    WithPriorityNone(tail, p0);
    WithPriorityConcat(head, tail, p0);
    if q != p0 {
      WithPriorityNone(head, q);
      WithPriorityConcat(head, tail, q);
    }
  }

  /** The head of a sorted list has the smallest priority. */
  lemma SortedMin(s: seq<CompiledScenario>)
    requires SortedByPriority(s) && s != []
    ensures forall y :: y in s ==> s[0].priority <= y.priority
  {
    forall y | y in s ensures s[0].priority <= y.priority {
      var i :| 0 <= i < |s| && s[i] == y;
      if i > 0 { assert s[0].priority <= s[i].priority; }
    }
  }

  /** The case where the leading run of a sorted list already has a match. */
  lemma FirstGroupHit(lib: Lib, s: seq<CompiledScenario>, ctx: MatchContext)
    requires SortedByPriority(s) && s != []
    requires Matching(lib, s[..RunLength(s, s[0].priority)], ctx) != []
    ensures var r := FirstMatchingGroup(lib, s, ctx);
      && r != []
      && r[0] in s && r[0].priority == s[0].priority
      && (forall y :: y in s ==> r[0].priority <= y.priority)
      && r == Matching(lib, WithPriority(s, r[0].priority), ctx)
  {
    var p0 := s[0].priority;
    var n := RunLength(s, p0);
    var head := s[..n];
    var c := Matching(lib, head, ctx);
    assert FirstMatchingGroup(lib, s, ctx) == c;
    RunLengthSpan(s, p0);
    MatchingMembers(lib, head, ctx);
    assert c[0] in head;
    RunIsClass(s, p0);
    SortedMin(s);
  }

  /** The case where the leading run of a sorted list has no match: the search moves past it. */
  lemma FirstGroupSkip(lib: Lib, s: seq<CompiledScenario>, ctx: MatchContext, q: int)
    requires SortedByPriority(s) && s != []
    requires Matching(lib, s[..RunLength(s, s[0].priority)], ctx) == []
    requires q > s[0].priority
    ensures var n := RunLength(s, s[0].priority);
      && FirstMatchingGroup(lib, s, ctx) == FirstMatchingGroup(lib, s[n..], ctx)
      && WithPriority(s, q) == WithPriority(s[n..], q)
      && (forall y :: y in s ==> y in s[n..] || !Matches(lib, y, ctx))
  {
    RunIsClass(s, q);
    UnmatchedPrefix(lib, s, RunLength(s, s[0].priority), ctx);
  }

  /** With no match in `s[..n]`, every matching element of `s` lies in `s[n..]`. */
  lemma UnmatchedPrefix(lib: Lib, s: seq<CompiledScenario>, n: nat, ctx: MatchContext)
    requires n <= |s| && Matching(lib, s[..n], ctx) == []
    ensures forall y :: y in s ==> y in s[n..] || !Matches(lib, y, ctx)
  {
    var head, tail := s[..n], s[n..];
    MatchingEmpty(lib, head, ctx);
    forall y | y in s ensures y in tail || !Matches(lib, y, ctx) {
      var i :| 0 <= i < |s| && s[i] == y;
      if i < n { assert y == head[i]; } else { assert y == tail[i - n]; }
    }
  }

  /**
   * On a sorted list, the first matching group is exactly the matching scenarios of the
   * smallest priority any matching scenario has, in list order.
   */
  lemma {:induction false} FirstMatchingGroupSorted(lib: Lib, s: seq<CompiledScenario>, ctx: MatchContext)
    requires SortedByPriority(s)
    ensures var r := FirstMatchingGroup(lib, s, ctx);
      && (r == [] <==> forall y :: y in s ==> !Matches(lib, y, ctx))
      && (r != [] ==>
            && r[0] in s
            && (forall y :: y in s && Matches(lib, y, ctx) ==> r[0].priority <= y.priority)
            && r == Matching(lib, WithPriority(s, r[0].priority), ctx))
    decreases |s|
  {
    if s != [] {
      var n := RunLength(s, s[0].priority);
      if Matching(lib, s[..n], ctx) != [] {
        FirstGroupHit(lib, s, ctx);
        var r := FirstMatchingGroup(lib, s, ctx);
        MatchingMembers(lib, s[..n], ctx);
        assert r[0] in s[..n] && Matches(lib, r[0], ctx);
      } else {
        SortedRunSplit(s);
        var tail := s[n..];
        FirstMatchingGroupSorted(lib, tail, ctx);
        var r := FirstMatchingGroup(lib, tail, ctx);
        if r != [] {
          var i :| 0 <= i < |tail| && tail[i] == r[0];
          assert s[n + i] == r[0];
          FirstGroupSkip(lib, s, ctx, r[0].priority);
        } else {
          FirstGroupSkip(lib, s, ctx, s[0].priority + 1);
        }
      }
    }
  }

  /**
   * The candidates the group walk of `PickScenario` settles on, stated against the route's
   * own scenario order: empty exactly when nothing matches, and otherwise every matching
   * scenario of the smallest matching priority, in configuration order.
   */
  lemma Candidates(lib: Lib, scs: seq<CompiledScenario>, ctx: MatchContext)
    ensures var r := FirstMatchingGroup(lib, SortByPriority(scs), ctx);
      && (r == [] <==> forall y :: y in scs ==> !Matches(lib, y, ctx))
      && (r != [] ==>
            && r[0] in scs
            && (forall y :: y in scs && Matches(lib, y, ctx) ==> r[0].priority <= y.priority)
            && r == Matching(lib, WithPriority(scs, r[0].priority), ctx))
  {
    var sorted := SortByPriority(scs);
    FirstMatchingGroupSorted(lib, sorted, ctx);
    assert forall y :: y in sorted <==> y in multiset(sorted);
    assert forall y :: y in scs <==> y in multiset(scs);
  }

  // ---------------------------------------------------------------------------------------
  // Weighted choice and the pseudo-random source

  /** A weight of zero or less counts as 1 towards the total. */
  function NormWeight(w: int): int {
    if w <= 0 then 1 else w
  }

  /** The total of the first `k` normalised weights. */
  function NormSum(list: seq<CompiledScenario>, k: nat): (t: int)
    requires k <= |list|
    ensures t >= k
  {
    if k == 0 then 0 else NormSum(list, k - 1) + NormWeight(list[k - 1].weight)
  }

  /** `sum` in `weightedPick`: each candidate adds its weight, or 1 when the weight is not positive. */
  function Total(list: seq<CompiledScenario>): (t: int)
    ensures t >= |list|
  {
    NormSum(list, |list|)
  }

  /** The cumulative ORIGINAL weight of the first `k` candidates (`acc` in the second loop). */
  function Cum(list: seq<CompiledScenario>, k: nat): int
    requires k <= |list|
  {
    if k == 0 then 0 else Cum(list, k - 1) + list[k - 1].weight
  }

  /** `i` is the first candidate whose cumulative weight exceeds the draw `n`. */
  predicate FirstExceeding(list: seq<CompiledScenario>, n: int, i: int) {
    0 <= i < |list| && n < Cum(list, i + 1) && forall j :: 1 <= j <= i ==> n >= Cum(list, j)
  }

  /** No cumulative weight exceeds the draw `n`: the walk falls through. */
  predicate NoneExceeds(list: seq<CompiledScenario>, n: int) {
    forall j :: 1 <= j <= |list| ==> n >= Cum(list, j)
  }

  function WalkFrom(list: seq<CompiledScenario>, n: int, i: nat): (k: nat)
    requires i <= |list|
    ensures k < |list| || |list| == 0
    ensures (forall j :: 1 <= j <= i ==> n >= Cum(list, j)) ==>
              (FirstExceeding(list, n, k) || (k == 0 && NoneExceeds(list, n)))
    decreases |list| - i
  {
    if i == |list| then 0
    else if n < Cum(list, i + 1) then i
    else WalkFrom(list, n, i + 1)
  }

  /**
   * The cumulative walk of `weightedPick` for the draw `n`: the first candidate whose
   * cumulative original weight exceeds `n`, or the first candidate when none does.
   */
  function Walk(list: seq<CompiledScenario>, n: int): (s: CompiledScenario)
    requires |list| > 0
    ensures s in list
    ensures forall i :: FirstExceeding(list, n, i) ==> s == list[i]
    ensures NoneExceeds(list, n) ==> s == list[0]
  {
    var k := WalkFrom(list, n, 0);
    list[k]
  }

  lemma {:induction false} CumPositive(list: seq<CompiledScenario>, k: nat)
    requires k <= |list|
    requires forall i :: 0 <= i < |list| ==> list[i].weight > 0
    ensures Cum(list, k) == NormSum(list, k)
    ensures forall j :: 0 <= j < k ==> Cum(list, j) < Cum(list, j + 1)
  {
    if k > 0 {
      CumPositive(list, k - 1);
    }
  }

  /**
   * With every weight positive, a draw in `[0, total)` always lands on a candidate by the
   * cumulative walk: the fallback to the first candidate is never taken.
   */
  lemma WalkPositive(list: seq<CompiledScenario>, n: int)
    requires |list| > 0
    requires forall i :: 0 <= i < |list| ==> list[i].weight > 0
    requires 0 <= n < Total(list)
    ensures exists i :: FirstExceeding(list, n, i) && Walk(list, n) == list[i]
  {
    CumPositive(list, |list|);
    var k := WalkFrom(list, n, 0);
    assert Total(list) == NormSum(list, |list|);
    assert n < Cum(list, |list|);
    assert !NoneExceeds(list, n);
    assert FirstExceeding(list, n, k);
  }

  const Modulus31: int := 0x8000_0000

  /** One step of the generator: `seed = (1103515245*seed + 12345) & 0x7fffffff`. */
  function Lcg(seed: int): (next: int)
    ensures 0 <= next < Modulus31
  {
    (1103515245 * seed + 12345) % Modulus31
  }

  /** Two's-complement wrap into `int64`. */
  function Wrap64(x: int): int {
    (x + 0x8000_0000_0000_0000) % 0x1_0000_0000_0000_0000 - 0x8000_0000_0000_0000
  }

  lemma ModShift(x: int, k: int)
    ensures (x + k * Modulus31) % Modulus31 == x % Modulus31
  {
  }

  /**
   * `Lcg` agrees with the source's `int64` arithmetic: the product wraps modulo 2^64, but
   * masking with 0x7fffffff (reduction modulo 2^31) sees no difference, since 2^31 divides 2^64.
   */
  lemma Int64StepAgrees(seed: int)
    requires -0x8000_0000_0000_0000 <= seed < 0x8000_0000_0000_0000
    ensures Wrap64(1103515245 * seed + 12345) % Modulus31 == Lcg(seed)
  {
    var x := 1103515245 * seed + 12345;
    var big := 0x1_0000_0000_0000_0000;
    var y := x + 0x8000_0000_0000_0000;
    var q := y / big;
    assert y % big == y - q * big;
    assert Wrap64(x) == x + (-q * 0x2_0000_0000) * Modulus31;
    ModShift(x, -q * 0x2_0000_0000);
  }

  /** The package-level `seed` of rules.go and `randInt`. */
  class Rng {
    var seed: int

    constructor (initial: int)
      ensures seed == initial
    {
      seed := initial;
    }

    method RandInt(n: int) returns (r: int)
      requires n > 0
      modifies this
      ensures seed == Lcg(old(seed))
      ensures r == seed % n && 0 <= r < n
    {
      seed := Lcg(seed);
      r := seed % n;
    }
  }

  method WeightedPick(list: seq<CompiledScenario>, rng: Rng) returns (s: CompiledScenario)
    requires |list| > 0
    modifies rng
    ensures rng.seed == Lcg(old(rng.seed))
    ensures s == Walk(list, rng.seed % Total(list))
  {
    var sum := 0;
    for i := 0 to |list|
      invariant sum == NormSum(list, i)
    {
      var sc := list[i];
      if sc.weight <= 0 {
        sc := sc.(weight := 1);
      }
      sum := sum + sc.weight;
    }
    var n := rng.RandInt(sum);
    var acc := 0;
    for i := 0 to |list|
      invariant acc == Cum(list, i)
      invariant WalkFrom(list, n, 0) == WalkFrom(list, n, i)
    {
      acc := acc + list[i].weight;
      if n < acc {
        return list[i];
      }
    }
    return list[0];
  }

  // ---------------------------------------------------------------------------------------
  // PickScenario

  const FallbackScenario := CompiledScenario("fallback", 0, None, 200, map[], "{}", false, 0, 0, 0)

  /** The result when no group matches: the default, else the first sorted scenario, else the fallback. */
  function LastResort(def: Option<CompiledScenario>, sorted: seq<CompiledScenario>): CompiledScenario {
    if def.Some? then def.value
    else if |sorted| > 0 then sorted[0]
    else FallbackScenario
  }

  /** `PickScenario` on the generator state `seed`: the chosen scenario and the state afterwards. */
  function Pick(lib: Lib, rt: CompiledRoute, ctx: MatchContext, seed: int): (CompiledScenario, int) {
    var sorted := SortByPriority(rt.scenarios);
    var cands := FirstMatchingGroup(lib, sorted, ctx);
    if cands != [] then
      var next := Lcg(seed);
      (Walk(cands, next % Total(cands)), next)
    else (LastResort(rt.defaultScenario, sorted), seed)
  }

  /**
   * When some scenario matches, the pick is a matching scenario of the route, of the smallest
   * priority among matching ones (so none of strictly smaller priority matches), chosen by one
   * step of the generator.
   */
  lemma PickMatched(lib: Lib, rt: CompiledRoute, ctx: MatchContext, seed: int)
    requires exists y :: y in rt.scenarios && Matches(lib, y, ctx)
    ensures var (s, next) := Pick(lib, rt, ctx, seed);
      && s in rt.scenarios && Matches(lib, s, ctx)
      && (forall y :: y in rt.scenarios && y.priority < s.priority ==> !Matches(lib, y, ctx))
      && next == Lcg(seed)
  {
    var sorted := SortByPriority(rt.scenarios);
    var cands := FirstMatchingGroup(lib, sorted, ctx);
    Candidates(lib, rt.scenarios, ctx);
    var p := cands[0].priority;
    var s := Walk(cands, Lcg(seed) % Total(cands));
    WithPriorityMembers(rt.scenarios, p);
    MatchingMembers(lib, WithPriority(rt.scenarios, p), ctx);
    assert s in cands;
  }

  lemma {:induction false} WithPriorityMembers(s: seq<CompiledScenario>, p: int)
    ensures forall y :: y in WithPriority(s, p) <==> y in s && y.priority == p
    decreases |s|
  {
    if s != [] {
      WithPriorityMembers(s[1..], p);
      assert forall y :: y in s <==> y == s[0] || y in s[1..];
    }
  }

  lemma {:induction false} WithPriorityHead(s: seq<CompiledScenario>, p: int) returns (k: nat)
    requires WithPriority(s, p) != []
    ensures k < |s| && s[k] == WithPriority(s, p)[0] && s[k].priority == p
    ensures forall j :: 0 <= j < k ==> s[j].priority != p
    decreases |s|
  {
    if s[0].priority == p {
      k := 0;
    } else {
      var k' := WithPriorityHead(s[1..], p);
      k := k' + 1;
    }
  }

  /** Every scenario of a list is also in its sorted copy, and the other way round. */
  lemma SortedMembers(scs: seq<CompiledScenario>)
    ensures forall y :: y in SortByPriority(scs) <==> y in scs
    ensures |SortByPriority(scs)| == |scs|
  {
    var sorted := SortByPriority(scs);
    assert forall y :: y in sorted <==> y in multiset(sorted);
    assert forall y :: y in scs <==> y in multiset(scs);
    assert |sorted| == |multiset(sorted)| == |multiset(scs)| == |scs|;
  }

  /**
   * The head of the stable sort is the earliest scenario of the smallest priority: `k` is its
   * index in the unsorted list.
   */
  lemma SortedHead(scs: seq<CompiledScenario>) returns (k: nat)
    requires scs != []
    ensures k < |scs| && scs[k] == SortByPriority(scs)[0]
    ensures forall j :: 0 <= j < |scs| ==> scs[k].priority <= scs[j].priority
    ensures forall j :: 0 <= j < k ==> scs[k].priority < scs[j].priority
  {
    var sorted := SortByPriority(scs);
    SortedMembers(scs);
    SortedMin(sorted);
    var p := sorted[0].priority;
    assert WithPriority(sorted, p)[0] == sorted[0];
    assert WithPriority(scs, p) == WithPriority(sorted, p);
    k := WithPriorityHead(scs, p);
    forall j | 0 <= j < |scs| ensures p <= scs[j].priority {
      assert scs[j] in scs;
    }
  }

  /**
   * When nothing matches, the generator is not touched and the pick is the route's default when
   * it has one; otherwise the earliest scenario of the smallest priority; otherwise the built-in
   * fallback (`fallback`, status 200, body `{}`).
   */
  lemma PickUnmatched(lib: Lib, rt: CompiledRoute, ctx: MatchContext, seed: int)
    requires forall y :: y in rt.scenarios ==> !Matches(lib, y, ctx)
    ensures var (s, next) := Pick(lib, rt, ctx, seed);
      && next == seed
      && (rt.defaultScenario.Some? ==> s == rt.defaultScenario.value)
      && (rt.defaultScenario.None? && rt.scenarios == [] ==> s == FallbackScenario)
      && (rt.defaultScenario.None? && rt.scenarios != [] ==>
            exists k :: 0 <= k < |rt.scenarios| && rt.scenarios[k] == s
              && (forall j :: 0 <= j < |rt.scenarios| ==> s.priority <= rt.scenarios[j].priority)
              && (forall j :: 0 <= j < k ==> s.priority < rt.scenarios[j].priority))
  {
    var scs := rt.scenarios;
    var sorted := SortByPriority(scs);
    assert FirstMatchingGroup(lib, sorted, ctx) == [] by {
      Candidates(lib, scs, ctx);
    }
    SortedMembers(scs);
    if rt.defaultScenario.None? && scs != [] {
      var k := SortedHead(scs);
    }
  }

  /** The scan `for j < len(scs) && scs[j].Priority == p { j++ }`: the end of the group at `i`. */
  method GroupEnd(scs: seq<CompiledScenario>, i: nat) returns (j: nat)
    requires i < |scs|
    ensures j == i + RunLength(scs[i..], scs[i].priority) && i < j <= |scs|
  {
    var p := scs[i].priority;
    j := i + 1;
    assert scs[i..][1..] == scs[i + 1..];
    while j < |scs| && scs[j].priority == p
      invariant i < j <= |scs|
      invariant RunLength(scs[i..], p) == (j - i) + RunLength(scs[j..], p)
    {
      assert scs[j..][1..] == scs[j + 1..];
      j := j + 1;
    }
  }

  /** The `candidates` loop: the scenarios of the group whose rules hold, in order. */
  method Filter(lib: Lib, group: seq<CompiledScenario>, ctx: MatchContext) returns (candidates: seq<CompiledScenario>)
    ensures candidates == Matching(lib, group, ctx)
  {
    candidates := [];
    for k := 0 to |group|
      invariant candidates == Matching(lib, group[..k], ctx)
    {
      var ok := RulesOK(lib, group[k].matchRules, ctx);
      assert group[..k + 1] == group[..k] + [group[k]];
      MatchingConcat(lib, group[..k], [group[k]], ctx);
      if ok {
        candidates := candidates + [group[k]];
      }
    }
    assert group[..|group|] == group;
  }

  /** One step of the group walk: the group at `i` either supplies the candidates or is skipped. */
  lemma GroupStep(lib: Lib, scs: seq<CompiledScenario>, i: nat, j: nat, ctx: MatchContext)
    requires i < |scs| && j == i + RunLength(scs[i..], scs[i].priority) && j <= |scs|
    ensures Matching(lib, scs[i..j], ctx) != [] ==>
              FirstMatchingGroup(lib, scs[i..], ctx) == Matching(lib, scs[i..j], ctx)
    ensures Matching(lib, scs[i..j], ctx) == [] ==>
              FirstMatchingGroup(lib, scs[i..], ctx) == FirstMatchingGroup(lib, scs[j..], ctx)
  {
    var t := scs[i..];
    assert t[0] == scs[i];
    assert t[..j - i] == scs[i..j] && t[j - i..] == scs[j..];
  }

  /** The pick once the group walk has found its candidates. */
  lemma PickFound(lib: Lib, rt: CompiledRoute, ctx: MatchContext, seed: int, cands: seq<CompiledScenario>)
    requires cands == FirstMatchingGroup(lib, SortByPriority(rt.scenarios), ctx) && cands != []
    ensures Pick(lib, rt, ctx, seed) == (Walk(cands, Lcg(seed) % Total(cands)), Lcg(seed))
  {
  }

  /** The pick when the group walk found nothing. */
  lemma PickNone(lib: Lib, rt: CompiledRoute, ctx: MatchContext, seed: int)
    requires FirstMatchingGroup(lib, SortByPriority(rt.scenarios), ctx) == []
    ensures Pick(lib, rt, ctx, seed) == (LastResort(rt.defaultScenario, SortByPriority(rt.scenarios)), seed)
  {
  }

  method PickScenario(lib: Lib, rt: CompiledRoute, ctx: MatchContext, rng: Rng) returns (s: CompiledScenario)
    modifies rng
    ensures (s, rng.seed) == Pick(lib, rt, ctx, old(rng.seed))
  {
    var scs := SortByPriority(rt.scenarios);
    var i := 0;
    assert scs[0..] == scs;
    while i < |scs|
      invariant 0 <= i <= |scs|
      invariant FirstMatchingGroup(lib, scs, ctx) == FirstMatchingGroup(lib, scs[i..], ctx)
      invariant rng.seed == old(rng.seed)
    {
      var j := GroupEnd(scs, i);
      var group := scs[i..j];
      var candidates := Filter(lib, group, ctx);
      GroupStep(lib, scs, i, j, ctx);
      if |candidates| > 0 {
        PickFound(lib, rt, ctx, rng.seed, candidates);
        s := WeightedPick(candidates, rng);
        return;
      }
      i := j;
    }
    assert scs[|scs|..] == [];
    PickNone(lib, rt, ctx, rng.seed);
    if rt.defaultScenario.Some? {
      return rt.defaultScenario.value;
    }
    if |scs| > 0 {
      return scs[0];
    }
    return FallbackScenario;
  }
}

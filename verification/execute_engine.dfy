/**
  The template-execution orchestration of the worker: the compiled-template
  cache shared by all requests, the per-request map that lets only the first
  evaluation of a template/helpers combination enter the sandbox, the
  execution function run inside the sandbox, the error decoration of the
  top-level run, and the `templatingEngines.evaluate` entry used by helpers.
 */
module ExecuteEngine {
  import opened JsValues
  import opened Reports
  import opened AsyncHelpers
  import opened ErrorEnrichment

  /** An opaque compiled template, as the engine's `compile` returns it. */
  datatype CompiledTemplate = CompiledTemplate(handle: nat)

  /** What the sandbox hands the execution function (require and console are left out). */
  datatype SandboxParams = SandboxParams(topLevelFunctions: map<string, Helper>)

  /**
    What one `engine.execute` does: the results the wrapped helpers' own
    functions return, call by call, and the text it renders from what the
    wrapped helpers handed back; or a thrown error.
   */
  datatype EngineRun =
    | Ran(helperResults: seq<Value>, output: seq<Value> -> string)
    | ExecuteThrew(error: JsError)

  datatype EngineImpl = EngineImpl(
    name: string,
    compile: string -> Result<CompiledTemplate>,
    execute: (CompiledTemplate, map<string, WrappedHelper>, Value) -> EngineRun)

  /** `reporter.runInSandbox`: evaluating the joined helper code yields its top-level functions or throws. */
  datatype SandboxOutcome = Loaded(params: SandboxParams) | SandboxThrew(error: JsError)

  /** The collaborators the orchestration calls but does not define. */
  datatype Collaborators = Collaborators(
    runInSandbox: (string, nat) -> SandboxOutcome,   // user code, error line offset
    resolveEntityPath: (Entity, string) -> Result<string>,
    resolveEntityFromPath: (string, string) -> Result<Option<Entity>>,
    nextId: nat -> string)                            // the id generator, call by call

  /** The id generator hands out capturable ids that never repeat. */
  ghost predicate IdOracle(nextId: nat -> string) {
    && (forall i: nat :: MarkerId(nextId(i)))
    && (forall i: nat, j: nat :: i != j ==> nextId(i) != nextId(j))
  }

  /**
    How an evaluation ends: with rendered text, with a thrown error, waiting
    on an awaiter nobody has resolved yet, or with placeholders still present
    after the allowed number of substitution passes.
   */
  datatype Outcome<+T> = Done(value: T) | Threw(error: JsError) | Suspended | OutOfFuel

  datatype RuntimeOptions = RuntimeOptions(
    appDirectory: Value,
    rootDirectory: Value,
    parentModuleDirectory: Value,
    cacheDisabled: bool)   // reporter.options.sandbox.cache.enabled === false

  /** A TypeError from reading a property of `undefined`. */
  function UndefinedPropertyError(property: string): JsError {
    PlainError("Cannot read properties of undefined (reading '" + property + "')")
  }

  // ---------------------------------------------------------------- keys

  /** Missing helpers are concatenated as the text `undefined`. */
  function HelpersSource(helpers: Option<string>): string {
    match helpers
    case None => "undefined"
    case Some(h) => h
  }

  /** The code the sandbox runs: the system helpers, a line break, then the user's helpers. */
  function JoinHelpers(systemHelpers: string, helpers: Option<string>): string {
    var joined := systemHelpers + "\n" + HelpersSource(helpers);
    assert joined[..|systemHelpers| + 1] == systemHelpers + "\n";
    joined
  }

  /** The dedup key: the entity (its shortid, or `anonymous`) followed by the joined helpers. */
  function ParamsKey(shortid: string, joinedHelpers: string): string {
    var prefix := "entity:" + (if shortid == "" then "anonymous" else shortid) + ":helpers:";
    prefix + joinedHelpers
  }

  /**
    The dedup key names the entity (its shortid, or `anonymous` without one)
    and ends with the whole joined helper code.
   */
  lemma ParamsKeyParts(shortid: string, joinedHelpers: string)
    ensures var owner := if shortid == "" then "anonymous" else shortid;
            var key := ParamsKey(shortid, joinedHelpers);
            && StartsWith(key, "entity:" + owner + ":helpers:")
            && key[|"entity:" + owner + ":helpers:"|..] == joinedHelpers
  {
    var prefix := "entity:" + (if shortid == "" then "anonymous" else shortid) + ":helpers:";
    assert ParamsKey(shortid, joinedHelpers)[..|prefix|] == prefix;
  }

  /** For one entity, different helper programs never share a dedup entry. */
  lemma ParamsKeySeparatesHelpers(shortid: string, joined1: string, joined2: string)
    requires ParamsKey(shortid, joined1) == ParamsKey(shortid, joined2)
    ensures joined1 == joined2
  {
    ParamsKeyParts(shortid, joined1);
    ParamsKeyParts(shortid, joined2);
  }

  function CacheKey(content: string, engineName: string): string {
    "template:" + content + ":" + engineName
  }

  /** The compile cache key is `template:`, the whole content, a colon and the engine name. */
  lemma CacheKeyParts(content: string, engineName: string)
    ensures var key := CacheKey(content, engineName);
            && StartsWith(key, "template:")
            && |key| == |"template:"| + |content| + 1 + |engineName|
            && key[|"template:"|..|"template:"| + |content|] == content
            && key[|"template:"| + |content|..] == ":" + engineName
  {
    var key := CacheKey(content, engineName);
    assert key[..|"template:"|] == "template:";
    assert key[|"template:"|..|"template:"| + |content|] == content;
  }

  /** For one engine, different template contents never share a cache entry. */
  lemma CacheKeySeparatesContent(content1: string, content2: string, engineName: string)
    requires CacheKey(content1, engineName) == CacheKey(content2, engineName)
    ensures content1 == content2
  {
    CacheKeyParts(content1, engineName);
    CacheKeyParts(content2, engineName);
  }

  /** `systemHelpers.split('\n').length` */
  function LineOffset(systemHelpers: string): nat {
    CountChar(systemHelpers, '\n') + 1
  }

  /**
    The user helpers start right after the first `LineOffset(systemHelpers)`
    line breaks of the joined code, so line k of the user's helpers is line
    k + offset of the code the sandbox runs.
   */
  lemma UserHelpersStartAfterOffset(systemHelpers: string, helpers: Option<string>)
    ensures StartsWith(JoinHelpers(systemHelpers, helpers), systemHelpers + "\n")
    ensures JoinHelpers(systemHelpers, helpers)[|systemHelpers| + 1..] == HelpersSource(helpers)
    ensures CountChar(systemHelpers + "\n", '\n') == LineOffset(systemHelpers)
  {
    CountCharAppend(systemHelpers, "\n", '\n');
    var joined := JoinHelpers(systemHelpers, helpers);
    assert joined == (systemHelpers + "\n") + HelpersSource(helpers);
    assert joined[..|systemHelpers + "\n"|] == systemHelpers + "\n";
    assert joined[|systemHelpers + "\n"|..] == HelpersSource(helpers);
  }

  /** `path.substring(0, path.lastIndexOf('/'))` */
  function ParentPath(path: string): (dir: string)
    ensures StartsWith(path, dir)
    ensures LastIndexOf(path, '/') < 0 ==> dir == ""
    ensures LastIndexOf(path, '/') >= 0 ==>
              && |dir| == LastIndexOf(path, '/') && path[|dir|] == '/'
              && forall j :: |dir| < j < |path| ==> path[j] != '/'
  {
    var i := LastIndexOf(path, '/');
    if i < 0 then "" else path[..i]
  }

  /** The folder of `dir/name` is `dir` for a plain name. */
  lemma ParentOfChild(dir: string, name: string)
    requires forall i :: 0 <= i < |name| ==> name[i] != '/'
    ensures ParentPath(dir + "/" + name) == dir
  {
    var p := dir + "/" + name;
    var i := LastIndexOf(p, '/');
    assert p[|dir|] == '/';
    assert forall j :: |dir| < j < |p| ==> p[j] == name[j - |dir| - 1];
    assert i == |dir|;
    assert p[..|dir|] == dir;
  }

  // ------------------------------------------------------- compile cache

  /** The result of a get-or-compile: the handle or the thrown error, the new cache, and whether `compile` ran. */
  datatype CacheLookup = CacheLookup(
    result: Result<CompiledTemplate>,
    cache: map<string, CompiledTemplate>,
    compiled: bool)

  /**
    `if (!cache.has(key)) cache.set(key, engine.compile(content))` followed
    by `cache.get(key)`, with a compile error tagged `property = 'content'`.
   */
  function CompileThroughCache(cache: map<string, CompiledTemplate>, content: string, engine: EngineImpl)
    : (s: CacheLookup)
    ensures s.compiled <==> CacheKey(content, engine.name) !in cache
    ensures CacheKey(content, engine.name) in cache ==>
              s == CacheLookup(Ok(cache[CacheKey(content, engine.name)]), cache, false)
    ensures CacheKey(content, engine.name) !in cache ==>
              match engine.compile(content)
              case Ok(handle) => s.result == Ok(handle)
              case Err(e) => s.result == Err(e.(property := Some(ContentProperty)))
    ensures s.result.Ok? ==> CacheKey(content, engine.name) in s.cache
                             && s.cache[CacheKey(content, engine.name)] == s.result.value
    ensures s.result.Err? ==> s.cache == cache && s.result.error.property == Some(ContentProperty)
    ensures forall k :: k != CacheKey(content, engine.name) ==>
              (k in s.cache <==> k in cache) && (k in cache ==> s.cache[k] == cache[k])
  {
    var key := CacheKey(content, engine.name);
    if key in cache then CacheLookup(Ok(cache[key]), cache, false)
    else match engine.compile(content)
      case Ok(handle) => CacheLookup(Ok(handle), cache[key := handle], true)
      case Err(e) => CacheLookup(Err(e.(property := Some(ContentProperty))), cache, true)
  }

  /** A hit never compiles, returns the stored handle and leaves the cache alone. */
  lemma CacheHitReturnsStoredHandle(cache: map<string, CompiledTemplate>, content: string, engine: EngineImpl)
    requires CacheKey(content, engine.name) in cache
    ensures var s := CompileThroughCache(cache, content, engine);
            !s.compiled && s.result == Ok(cache[CacheKey(content, engine.name)]) && s.cache == cache
  {
  }

  /** After a successful get-or-compile, the next one with the same content and engine returns the same handle without compiling. */
  lemma SecondLookupReusesHandle(cache: map<string, CompiledTemplate>, content: string, engine: EngineImpl)
    requires CompileThroughCache(cache, content, engine).result.Ok?
    ensures var first := CompileThroughCache(cache, content, engine);
            var second := CompileThroughCache(first.cache, content, engine);
            !second.compiled && second.result == first.result && second.cache == first.cache
  {
  }

  /** A failed compile is not cached: the next get-or-compile with the same content and engine compiles again. */
  lemma FailedCompileIsRetried(cache: map<string, CompiledTemplate>, content: string, engine: EngineImpl)
    requires CompileThroughCache(cache, content, engine).result.Err?
    ensures CompileThroughCache(CompileThroughCache(cache, content, engine).cache, content, engine).compiled
  {
  }

  // ---------------------------------------------------- per-request dedup

  /** The awaiter stored per key: its promise is pending or resolved with the sandbox parameters. */
  datatype Awaiter = Awaiter(settled: Option<SandboxParams>)

  /** `awaiter.resolve(params)`: a promise settles once; later resolutions change nothing. */
  function ResolveAwaiter(entries: map<string, Awaiter>, key: string, params: SandboxParams)
    : (r: map<string, Awaiter>)
    requires key in entries
    ensures r.Keys == entries.Keys
    ensures r[key].settled.Some?
    ensures entries[key].settled.Some? ==> r == entries
    ensures entries[key].settled.None? ==> r[key].settled == Some(params)
    ensures forall k :: k in entries && k != key ==> r[k] == entries[k]
  {
    if entries[key].settled.Some? then entries else entries[key := Awaiter(Some(params))]
  }

  /** `executionFnParsedParamsMap.set(context.id, new Map())` at the start of a request. */
  function OpenContext(parsed: map<string, map<string, Awaiter>>, contextId: string)
    : (started: map<string, map<string, Awaiter>>)
    ensures contextId in started && started[contextId] == map[]
    ensures started - {contextId} == parsed - {contextId}
  {
    parsed[contextId := map[]]
  }

  /** What an evaluation finds for its key: it is the first one, or it awaits an existing awaiter. */
  datatype Claim = First | Await(settled: Option<SandboxParams>)

  /** The `has(key)` test with the registration of a fresh awaiter for the first evaluation. */
  function ClaimKey(entries: map<string, Awaiter>, key: string): (c: (Claim, map<string, Awaiter>))
    ensures c.0.First? <==> key !in entries
    ensures c.0.First? ==> c.1 == entries[key := Awaiter(None)]
    ensures c.0.Await? ==> c.1 == entries && c.0.settled == entries[key].settled
  {
    if key in entries then (Await(entries[key].settled), entries)
    else (First, entries[key := Awaiter(None)])
  }

  /**
    Only the first evaluation of a key registers an awaiter; every later one
    awaits that awaiter, and all of them see the parameters it was first
    resolved with.
   */
  lemma OnlyFirstClaimRegisters(entries: map<string, Awaiter>, key: string,
                                first: SandboxParams, later: SandboxParams)
    requires key !in entries
    ensures var (c1, e1) := ClaimKey(entries, key);
            var e2 := ResolveAwaiter(e1, key, first);
            var e3 := ResolveAwaiter(e2, key, later);
            && c1 == First
            && ClaimKey(e1, key) == (Await(None), e1)
            && ClaimKey(e3, key) == (Await(Some(first)), e3)
  {
  }

  // -------------------------------------------------------- engine lookup

  /** `engines.find((e) => e.name === engine)`, as an index, or -1. */
  function FindEngineIndex(engines: seq<EngineImpl>, engine: Option<string>): (i: int)
    ensures -1 <= i < |engines|
    ensures i >= 0 ==> engine == Some(engines[i].name)
    ensures forall j :: 0 <= j < |engines| && (i < 0 || j < i) ==> engine != Some(engines[j].name)
    decreases |engines|
  {
    if engines == [] then -1
    else if engine == Some(engines[0].name) then 0
    else
      var k := FindEngineIndex(engines[1..], engine);
      if k < 0 then -1 else k + 1
  }

  /** `!engine` is false */
  predicate EngineNameGiven(engine: Option<string>) {
    engine.Some? && engine.value != ""
  }

  function EngineNotFoundError(engine: Option<string>): JsError {
    var shown := match engine case None => "undefined" case Some(name) => name;
    ReporterError("Engine '" + shown + "' not found. If this is a custom engine make sure it's properly installed from npm", 400, false)
  }

  /**
    The guard of `evaluate` tests the requested name, not the engine found
    for it: a name that no registered engine has passes it.
   */
  lemma UnknownEngineMissesGuard(engines: seq<EngineImpl>, name: string)
    requires name != ""
    requires forall j :: 0 <= j < |engines| ==> engines[j].name != name
    ensures EngineNameGiven(Some(name))
    ensures FindEngineIndex(engines, Some(name)) == -1
  {
  }

  /** The engine `evaluate` hands on: the one found for the name, if any. */
  function EngineFound(engines: seq<EngineImpl>, engine: Option<string>): (found: Option<EngineImpl>)
    ensures found.Some? <==> exists j :: 0 <= j < |engines| && engine == Some(engines[j].name)
    ensures found.Some? ==> engine == Some(found.value.name) && found.value in engines
  {
    var i := FindEngineIndex(engines, engine);
    if i < 0 then None else Some(engines[i])
  }

  // ------------------------------------------------ helper calls and text

  /** What a wrapped helper hands back for its function's result `v`, under id `id`. */
  function WrappedReturn(v: Value, id: string): Value {
    if IsNullish(v) || !HasCallableThen(v) then v else Str(Placeholder(id))
  }

  function WrappedReturns(calls: seq<Value>, nextId: nat -> string): (rs: seq<Value>)
    ensures |rs| == |calls|
  {
    seq(|calls|, j requires 0 <= j < |calls| => WrappedReturn(calls[j], nextId(j)))
  }

  /** The `asyncResultMap` after the first `n` helper calls. */
  function Parked(calls: seq<Value>, nextId: nat -> string, n: nat): map<string, Settlement>
    requires n <= |calls|
  {
    if n == 0 then map[]
    else
      var earlier := Parked(calls, nextId, n - 1);
      var v := calls[n - 1];
      if IsNullish(v) || !HasCallableThen(v) then earlier else earlier[nextId(n - 1) := v.settles]
  }

  lemma {:induction false} ParkedIdsAreEarlier(calls: seq<Value>, nextId: nat -> string, n: nat, m: nat)
    requires IdOracle(nextId)
    requires n <= m && n <= |calls|
    ensures nextId(m) !in Parked(calls, nextId, n)
  {
    if n > 0 {
      ParkedIdsAreEarlier(calls, nextId, n - 1, m);
      assert nextId(n - 1) != nextId(m);
    }
  }

  /** With no thenable among the helper results, nothing is parked and every result is handed back unchanged. */
  lemma {:induction false} SyncHelpersPassThrough(calls: seq<Value>, nextId: nat -> string, n: nat)
    requires n <= |calls|
    requires forall j :: 0 <= j < |calls| ==> !HasCallableThen(calls[j])
    ensures Parked(calls, nextId, n) == map[]
    ensures WrappedReturns(calls, nextId) == calls
  {
    if n > 0 {
      SyncHelpersPassThrough(calls, nextId, n - 1);
    }
    forall j | 0 <= j < |calls|
      ensures WrappedReturns(calls, nextId)[j] == calls[j]
    {
      assert !HasCallableThen(calls[j]);
      assert WrappedReturns(calls, nextId)[j] == WrappedReturn(calls[j], nextId(j));
    }
  }

  /** The calls the engine makes to the wrapped helpers, in order, against one pass's maps. */
  method InvokeWrappedHelpers(broker: AsyncResultBroker, calls: seq<Value>, nextId: nat -> string)
    returns (handedBack: seq<Value>)
    requires IdOracle(nextId)
    requires broker.pending == map[]
    modifies broker
    ensures broker.resolved == old(broker.resolved)
    ensures broker.pending == Parked(calls, nextId, |calls|)
    ensures handedBack == WrappedReturns(calls, nextId)
  {
    handedBack := [];
    var i := 0;
    while i < |calls|
      invariant 0 <= i <= |calls|
      invariant broker.resolved == old(broker.resolved)
      invariant broker.pending == Parked(calls, nextId, i)
      invariant handedBack == WrappedReturns(calls, nextId)[..i]
    {
      ParkedIdsAreEarlier(calls, nextId, i, i);
      var ret := broker.CallWrapped(calls[i], nextId(i));
      handedBack := handedBack + [ret];
      i := i + 1;
    }
  }

  /** The `for` loop wrapping every top-level function for async support. */
  method WrapTopLevelFunctions(fns: map<string, Helper>) returns (wrapped: map<string, WrappedHelper>)
    ensures wrapped == WrapAll(fns)
  {
    wrapped := map[];
    var todo := fns.Keys;
    while todo != {}
      invariant todo <= fns.Keys
      invariant wrapped.Keys == fns.Keys - todo
      invariant forall h :: h in wrapped ==> wrapped[h] == AsyncAware(fns[h])
      decreases todo
    {
      var h :| h in todo;
      wrapped := wrapped[h := AsyncAware(fns[h])];
      todo := todo - {h};
    }
  }

  function SettledOutcome(settled: Option<string>): Outcome<string> {
    match settled
    case Some(text) => Done(text)
    case None => OutOfFuel
  }

  /** A component's folder lookup (templates need none) succeeds. */
  predicate PathResolves(entity: Entity, entitySet: string, env: Collaborators) {
    entitySet == "templates" || env.resolveEntityPath(entity, entitySet).Ok?
  }

  /**
    The current path once `executionFn` has run for the entity: the folder
    of a component whose path resolves, and the path it found otherwise.
   */
  function PathAfterExecution(currentPath: Value, entity: Entity, entitySet: string, env: Collaborators): (p: Value)
    ensures entitySet == "templates" ==> p == currentPath
    ensures !PathResolves(entity, entitySet, env) ==> p == currentPath
    ensures entitySet != "templates" && PathResolves(entity, entitySet, env) ==>
              p.Str? && StartsWith(env.resolveEntityPath(entity, entitySet).value, p.s)
              && p == Str(ParentPath(env.resolveEntityPath(entity, entitySet).value))
  {
    if entitySet == "templates" then currentPath
    else match env.resolveEntityPath(entity, entitySet)
      case Err(_) => currentPath
      case Ok(entityPath) => Str(ParentPath(entityPath))
  }

  /**
    The `catch` of the top-level run: find the template's path (or
    `anonymous`), look the template up when the error names no entity, and
    decorate. A failing lookup throws its own error instead.
   */
  function CatchTemplateError(e: JsError, engineName: string, content: string,
                              template: Entity, env: Collaborators): (r: JsError)
    ensures template.id == "" ==>
              && r.message == TemplateErrorPrefix(engineName, AnonymousPath) + e.message
              && r.entity == e.entity
    ensures template.id != "" && env.resolveEntityPath(template, "templates").Err? ==>
              r == env.resolveEntityPath(template, "templates").error
    ensures template.id != "" && env.resolveEntityPath(template, "templates").Ok? ==>
              var path := env.resolveEntityPath(template, "templates").value;
              if path != AnonymousPath && e.entity.None? && env.resolveEntityFromPath(path, "templates").Err?
              then r == env.resolveEntityFromPath(path, "templates").error
              else && r.message == TemplateErrorPrefix(engineName, path) + e.message
                   && (r.entity.Some? <==> e.entity.Some? || (path != AnonymousPath
                                                               && env.resolveEntityFromPath(path, "templates").value.Some?))
  {
    if template.id == "" then EnrichTemplateError(e, engineName, AnonymousPath, None, content)
    else match env.resolveEntityPath(template, "templates")
      case Err(lookupError) => lookupError
      case Ok(path) =>
        if path != AnonymousPath && e.entity.None? then
          match env.resolveEntityFromPath(path, "templates")
          case Err(lookupError) => lookupError
          case Ok(found) => EnrichTemplateError(e, engineName, path, found, content)
        else EnrichTemplateError(e, engineName, path, None, content)
  }

  /**
    What the execution function yields once the engine is known, given the
    cache it started from: a compile error, an execute error, the first
    rejection among the parked results, or the settled text (or running out
    of substitution passes). Text is never `Done` with a placeholder left.
   */
  ghost predicate RendersAs(r: Outcome<string>, params: SandboxParams, engine: EngineImpl,
                            cache: map<string, CompiledTemplate>, content: string, data: Value,
                            nextId: nat -> string, fuel: nat)
  {
    var step := CompileThroughCache(cache, content, engine);
    && !r.Suspended?
    && (r.Done? ==> !Contains(r.value, Probe))
    && (step.result.Err? ==> r == Threw(step.result.error))
    && (step.result.Ok? ==>
          var run := engine.execute(step.result.value, WrapAll(params.topLevelFunctions), data);
          && (run.ExecuteThrew? ==> r == Threw(run.error))
          && (run.Ran? ==>
                var parked := Parked(run.helperResults, nextId, |run.helperResults|);
                && (AllFulfilled(parked) ==>
                      r == SettledOutcome(Settle(run.output(WrappedReturns(run.helperResults, nextId)),
                                                 Texts(parked), fuel)))
                && (!AllFulfilled(parked) ==>
                      r.Threw? && exists k :: k in parked && parked[k] == Rejected(r.error))))
  }

  /**
    End to end: when the engine lays its text out around the placeholders it
    was handed, and every awaited result is fulfilled with text that brings
    no new marker, the run ends with each placeholder replaced by the text
    its call was awaited to.
   */
  lemma AsyncResultsAreInlined(r: Outcome<string>, params: SandboxParams, engine: EngineImpl,
                               cache: map<string, CompiledTemplate>, content: string, data: Value,
                               nextId: nat -> string, fuel: nat, segments: seq<Segment>, tail: string)
    requires RendersAs(r, params, engine, cache, content, data, nextId, fuel)
    requires CompileThroughCache(cache, content, engine).result.Ok?
    requires engine.execute(CompileThroughCache(cache, content, engine).result.value,
                            WrapAll(params.topLevelFunctions), data).Ran?
    requires var run := engine.execute(CompileThroughCache(cache, content, engine).result.value,
                                       WrapAll(params.topLevelFunctions), data);
             var parked := Parked(run.helperResults, nextId, |run.helperResults|);
             && AllFulfilled(parked)
             && run.output(WrappedReturns(run.helperResults, nextId)) == Render(segments, tail)
             && WellFormed(segments, tail)
             && !Contains(Fill(segments, tail, Texts(parked)), Probe)
    requires fuel >= 1
    ensures var run := engine.execute(CompileThroughCache(cache, content, engine).result.value,
                                      WrapAll(params.topLevelFunctions), data);
            r == Done(Fill(segments, tail, Texts(Parked(run.helperResults, nextId, |run.helperResults|))))
  {
    var run := engine.execute(CompileThroughCache(cache, content, engine).result.value,
                              WrapAll(params.topLevelFunctions), data);
    OnePassSettles(segments, tail, Texts(Parked(run.helperResults, nextId, |run.helperResults|)), fuel);
  }

  /**
    A render whose helpers all return plain values ends with the engine's own
    output: nothing is parked and no placeholder is substituted.
   */
  lemma SyncRenderIsEngineOutput(r: Outcome<string>, params: SandboxParams, engine: EngineImpl,
                                 cache: map<string, CompiledTemplate>, content: string, data: Value,
                                 nextId: nat -> string, fuel: nat)
    requires RendersAs(r, params, engine, cache, content, data, nextId, fuel)
    requires CompileThroughCache(cache, content, engine).result.Ok?
    requires var run := engine.execute(CompileThroughCache(cache, content, engine).result.value,
                                       WrapAll(params.topLevelFunctions), data);
             && run.Ran?
             && (forall j :: 0 <= j < |run.helperResults| ==> !HasCallableThen(run.helperResults[j]))
             && !Contains(run.output(run.helperResults), Probe)
    ensures var run := engine.execute(CompileThroughCache(cache, content, engine).result.value,
                                      WrapAll(params.topLevelFunctions), data);
            r == Done(run.output(run.helperResults))
  {
    var run := engine.execute(CompileThroughCache(cache, content, engine).result.value,
                              WrapAll(params.topLevelFunctions), data);
    SyncHelpersPassThrough(run.helperResults, nextId, |run.helperResults|);
    assert Texts(map[]) == map[];
  }

  /**
    What `executionFn` yields with the parameters it was handed: the folder
    lookup's error for a component whose path cannot be resolved, the
    `TypeError` of reading `name` from a missing engine, and otherwise the
    render with the cache it started from.
   */
  ghost predicate ExecutionFnOutcome(r: Outcome<string>, params: SandboxParams, engine: Option<EngineImpl>,
                                     cache: map<string, CompiledTemplate>, content: string, data: Value,
                                     entity: Entity, entitySet: string, env: Collaborators, fuel: nat)
  {
    if !PathResolves(entity, entitySet, env) then r == Threw(env.resolveEntityPath(entity, entitySet).error)
    else if engine.None? then r == Threw(UndefinedPropertyError("name"))
    else RendersAs(r, params, engine.value, cache, content, data, env.nextId, fuel)
  }

  /** The compile cache after `executionFn`: only a render that reaches the engine goes through it. */
  function ExecutionFnCache(cache: map<string, CompiledTemplate>, content: string, engine: Option<EngineImpl>,
                            entity: Entity, entitySet: string, env: Collaborators): map<string, CompiledTemplate>
  {
    if PathResolves(entity, entitySet, env) && engine.Some? then CompileThroughCache(cache, content, engine.value).cache
    else cache
  }

  /**
    The outcome of the sandbox run once the helpers loaded: the execution
    function's outcome, with an error it throws decorated by the template
    `catch` when errors are handled.
   */
  ghost predicate HandledOutcome(r: Outcome<string>, handleErrors: bool, params: SandboxParams, engine: EngineImpl,
                                 cache: map<string, CompiledTemplate>, content: string, data: Value,
                                 entity: Entity, entitySet: string, template: Entity, env: Collaborators, fuel: nat)
  {
    if !handleErrors then ExecutionFnOutcome(r, params, Some(engine), cache, content, data, entity, entitySet, env, fuel)
    else
      && (!r.Threw? ==> ExecutionFnOutcome(r, params, Some(engine), cache, content, data, entity, entitySet, env, fuel))
      && (r.Threw? ==>
            exists o :: ExecutionFnOutcome(o, params, Some(engine), cache, content, data, entity, entitySet, env, fuel)
                        && o.Threw? && r.error == CatchTemplateError(o.error, engine.name, content, template, env))
  }

  /**
    The whole of `executeEngine` for one call, from the dedup map and cache
    it found (`parsed0`, `cache0`) to those it leaves (`parsed1`, `cache1`):
    a pending key waits; a resolved key runs the execution function with the
    parameters it was resolved with; a first call registers a pending
    awaiter, resets the cache when caching is off, and runs the helpers in
    the sandbox, whose parameters resolve the awaiter once the folder lookup
    succeeds.
   */
  ghost predicate ExecuteEngineOutcome(r: Outcome<string>, cacheDisabled: bool,
                                       parsed0: map<string, map<string, Awaiter>>, cache0: map<string, CompiledTemplate>,
                                       parsed1: map<string, map<string, Awaiter>>, cache1: map<string, CompiledTemplate>,
                                       engine: Option<EngineImpl>, content: string, helpers: Option<string>,
                                       systemHelpers: string, data: Value, handleErrors: bool,
                                       entity: Entity, entitySet: string, contextId: string, template: Entity,
                                       env: Collaborators, fuel: nat)
    requires contextId in parsed0
  {
    var joined := JoinHelpers(systemHelpers, helpers);
    var key := ParamsKey(entity.shortid, joined);
    var entries := parsed0[contextId];
    if key in entries then
      match entries[key].settled
      case None => r == Suspended && parsed1 == parsed0 && cache1 == cache0
      case Some(p) =>
        && parsed1 == parsed0
        && cache1 == ExecutionFnCache(cache0, content, engine, entity, entitySet, env)
        && ExecutionFnOutcome(r, p, engine, cache0, content, data, entity, entitySet, env, fuel)
    else
      var start := if cacheDisabled then map[] else cache0;
      var pending := parsed0[contextId := entries[key := Awaiter(None)]];
      if engine.None? then
        r == Threw(UndefinedPropertyError("createContext")) && parsed1 == pending && cache1 == start
      else match env.runInSandbox(joined, LineOffset(systemHelpers))
        case SandboxThrew(e) =>
          && r == Threw(if handleErrors then CatchTemplateError(e, engine.value.name, content, template, env) else e)
          && parsed1 == pending && cache1 == start
        case Loaded(p) =>
          && parsed1 == parsed0[contextId := entries[key := Awaiter(if PathResolves(entity, entitySet, env) then Some(p) else None)]]
          && cache1 == ExecutionFnCache(start, content, engine, entity, entitySet, env)
          && HandledOutcome(r, handleErrors, p, engine.value, start, content, data, entity, entitySet, template, env, fuel)
  }

  /**
    Whether a call of `executeEngine` reaches `executionFn`: a resolved key
    does; a first call does once the helpers load in the sandbox; a pending
    key waits instead.
   */
  predicate RunsExecutionFn(parsed0: map<string, map<string, Awaiter>>, engine: Option<EngineImpl>,
                            helpers: Option<string>, systemHelpers: string, entity: Entity,
                            contextId: string, env: Collaborators)
    requires contextId in parsed0
  {
    var joined := JoinHelpers(systemHelpers, helpers);
    var key := ParamsKey(entity.shortid, joined);
    if key in parsed0[contextId] then parsed0[contextId][key].settled.Some?
    else engine.Some? && env.runInSandbox(joined, LineOffset(systemHelpers)).Loaded?
  }

  /** The current path one call of `executeEngine` leaves on the request. */
  function EvaluationPath(currentPath: Value, parsed0: map<string, map<string, Awaiter>>, engine: Option<EngineImpl>,
                          helpers: Option<string>, systemHelpers: string, entity: Entity, entitySet: string,
                          contextId: string, env: Collaborators): Value
    requires contextId in parsed0
  {
    if RunsExecutionFn(parsed0, engine, helpers, systemHelpers, entity, contextId, env)
    then PathAfterExecution(currentPath, entity, entitySet, env)
    else currentPath
  }

  /** A template run never moves the current path. */
  lemma TemplateRunKeepsCurrentPath(currentPath: Value, parsed0: map<string, map<string, Awaiter>>,
                                    engine: Option<EngineImpl>, helpers: Option<string>, systemHelpers: string,
                                    entity: Entity, contextId: string, env: Collaborators)
    requires contextId in parsed0
    ensures EvaluationPath(currentPath, parsed0, engine, helpers, systemHelpers, entity, "templates", contextId, env)
            == currentPath
  {
  }

  /**
    A component evaluation that reaches `executionFn` and whose folder lookup
    finds `dir + "/" + name` leaves `dir` as the current path; one that
    waits, or never loads its helpers, leaves the path alone.
   */
  lemma ComponentRunSetsParentFolder(currentPath: Value, parsed0: map<string, map<string, Awaiter>>,
                                     engine: Option<EngineImpl>, helpers: Option<string>, systemHelpers: string,
                                     entity: Entity, entitySet: string, contextId: string, env: Collaborators,
                                     dir: string, name: string)
    requires contextId in parsed0
    requires entitySet != "templates"
    requires env.resolveEntityPath(entity, entitySet) == Ok(dir + "/" + name)
    requires forall i :: 0 <= i < |name| ==> name[i] != '/'
    ensures RunsExecutionFn(parsed0, engine, helpers, systemHelpers, entity, contextId, env) ==>
              EvaluationPath(currentPath, parsed0, engine, helpers, systemHelpers, entity, entitySet, contextId, env)
              == Str(dir)
    ensures !RunsExecutionFn(parsed0, engine, helpers, systemHelpers, entity, contextId, env) ==>
              EvaluationPath(currentPath, parsed0, engine, helpers, systemHelpers, entity, entitySet, contextId, env)
              == currentPath
  {
    ParentOfChild(dir, name);
  }

  // ------------------------------------------------------------ runtime

  /** The state the worker keeps for the process: the compiled-template cache and the per-request dedup maps. */
  class TemplatingRuntime {
    const options: RuntimeOptions
    var cache: map<string, CompiledTemplate>
    var parsedParams: map<string, map<string, Awaiter>>   // executionFnParsedParamsMap

    constructor (options: RuntimeOptions)
      ensures this.options == options && cache == map[] && parsedParams == map[]
    {
      this.options := options;
      cache := map[];
      parsedParams := map[];
    }

    /** `executionFn`: what runs inside the sandbox once the helper code has been evaluated. */
    method ExecutionFn(params: SandboxParams, engine: Option<EngineImpl>, content: string, data: Value,
                       entity: Entity, entitySet: string, key: string,
                       req: Request, env: Collaborators, fuel: nat)
      returns (r: Outcome<string>)
      requires req.contextId in parsedParams && key in parsedParams[req.contextId]
      requires IdOracle(env.nextId)
      modifies this, req`currentPath
      ensures !r.Suspended?
      ensures r.Done? ==> !Contains(r.value, Probe)
      ensures engine.None? ==> r.Threw?
      ensures parsedParams.Keys == old(parsedParams).Keys
      ensures parsedParams[req.contextId].Keys == old(parsedParams)[req.contextId].Keys
      ensures forall id :: id in old(parsedParams) && id != req.contextId ==>
                parsedParams[id] == old(parsedParams)[id]
      ensures old(parsedParams)[req.contextId][key].settled.Some? ==> parsedParams == old(parsedParams)
      ensures cache == old(cache) || (engine.Some? && cache == CompileThroughCache(old(cache), content, engine.value).cache)
      ensures !PathResolves(entity, entitySet, env) ==>
                && r == Threw(env.resolveEntityPath(entity, entitySet).error)
                && parsedParams == old(parsedParams) && cache == old(cache)
      ensures entitySet != "templates" && PathResolves(entity, entitySet, env) ==>
                req.currentPath == Str(ParentPath(env.resolveEntityPath(entity, entitySet).value))
      ensures entitySet == "templates" ==> req.currentPath == old(req.currentPath)
      ensures PathResolves(entity, entitySet, env) ==>
                parsedParams == old(parsedParams)[req.contextId :=
                                  ResolveAwaiter(old(parsedParams)[req.contextId], key, params)]
      ensures PathResolves(entity, entitySet, env) && engine.None? ==>
                r == Threw(UndefinedPropertyError("name")) && cache == old(cache)
      ensures PathResolves(entity, entitySet, env) && engine.Some? ==>
                && cache == CompileThroughCache(old(cache), content, engine.value).cache
                && RendersAs(r, params, engine.value, old(cache), content, data, env.nextId, fuel)
      ensures ExecutionFnOutcome(r, params, engine, old(cache), content, data, entity, entitySet, env, fuel)
      ensures cache == ExecutionFnCache(old(cache), content, engine, entity, entitySet, env)
      ensures req.currentPath == PathAfterExecution(old(req.currentPath), entity, entitySet, env)
    {
      if !PathResolves(entity, entitySet, env) {
        r := Threw(env.resolveEntityPath(entity, entitySet).error);
      } else {
        if entitySet != "templates" {
          req.currentPath := Str(ParentPath(env.resolveEntityPath(entity, entitySet).value));
        }
        parsedParams := parsedParams[req.contextId := ResolveAwaiter(parsedParams[req.contextId], key, params)];
        if engine.None? {
          r := Threw(UndefinedPropertyError("name"));
        } else {
          r := RenderWithEngine(params, engine.value, content, data, env.nextId, fuel);
        }
      }
    }

    /**
      The rest of `executionFn` once the engine is known: get-or-compile,
      wrap the helpers, execute, park and await the async results, and
      substitute their placeholders.
     */
    method RenderWithEngine(params: SandboxParams, engine: EngineImpl, content: string, data: Value,
                            nextId: nat -> string, fuel: nat)
      returns (r: Outcome<string>)
      requires IdOracle(nextId)
      modifies this`cache
      ensures cache == CompileThroughCache(old(cache), content, engine).cache
      ensures RendersAs(r, params, engine, old(cache), content, data, nextId, fuel)
    {
      var step := CompileThroughCache(cache, content, engine);
      cache := step.cache;
      if step.result.Err? {
        return Threw(step.result.error);
      }
      var wrapped := WrapTopLevelFunctions(params.topLevelFunctions);
      var run := engine.execute(step.result.value, wrapped, data);
      if run.ExecuteThrew? {
        return Threw(run.error);
      }
      var broker := new AsyncResultBroker();
      var handedBack := InvokeWrappedHelpers(broker, run.helperResults, nextId);
      var contentResult := run.output(handedBack);
      ghost var parked := broker.pending;
      var failure := broker.Drain();
      if failure.Some? {
        return Threw(failure.value);
      }
      assert broker.resolved == Texts(parked);
      var settled := SubstitutePlaceholders(contentResult, broker.resolved, fuel);
      r := SettledOutcome(settled);
    }

    /** `executeEngine`: dedup, optional cache reset, the sandbox run, and the error decoration. */
    method ExecuteEngine(engine: Option<EngineImpl>, content: string, helpers: Option<string>,
                         systemHelpers: string, data: Value,
                         handleErrors: bool, entity: Entity, entitySet: string,
                         req: Request, env: Collaborators, fuel: nat)
      returns (r: Outcome<string>)
      requires req.contextId in parsedParams
      requires handleErrors ==> engine.Some?
      requires IdOracle(env.nextId)
      modifies this, req`currentPath
      ensures r.Done? ==> !Contains(r.value, Probe)
      ensures engine.None? ==> r.Threw? || r.Suspended?
      ensures parsedParams.Keys == old(parsedParams).Keys
      ensures forall id :: id in old(parsedParams) && id != req.contextId ==>
                parsedParams[id] == old(parsedParams)[id]
      ensures var key := ParamsKey(entity.shortid, JoinHelpers(systemHelpers, helpers));
              && key in parsedParams[req.contextId]
              && parsedParams[req.contextId].Keys == old(parsedParams)[req.contextId].Keys + {key}
      // a later evaluation of the same key: it waits, or runs without the sandbox and changes no awaiter
      ensures var key := ParamsKey(entity.shortid, JoinHelpers(systemHelpers, helpers));
              key in old(parsedParams)[req.contextId] ==>
                && (old(parsedParams)[req.contextId][key].settled.None? ==>
                      r == Suspended && parsedParams == old(parsedParams) && cache == old(cache))
                && (old(parsedParams)[req.contextId][key].settled.Some? ==>
                      parsedParams == old(parsedParams) && !r.Suspended?)
      // the first evaluation of a key
      ensures var key := ParamsKey(entity.shortid, JoinHelpers(systemHelpers, helpers));
              key !in old(parsedParams)[req.contextId] ==>
                && !r.Suspended?
                && (options.cacheDisabled && engine.Some? ==> cache.Keys <= {CacheKey(content, engine.value.name)})
                && (options.cacheDisabled && engine.None? ==> cache == map[])
                && (engine.None? ==> r == Threw(UndefinedPropertyError("createContext")))
                && (engine.Some? && env.runInSandbox(JoinHelpers(systemHelpers, helpers), LineOffset(systemHelpers)).SandboxThrew? ==>
                      var e := env.runInSandbox(JoinHelpers(systemHelpers, helpers), LineOffset(systemHelpers)).error;
                      r == Threw(if handleErrors then CatchTemplateError(e, engine.value.name, content, req.template, env) else e))
                && (handleErrors && r.Threw? ==>
                      exists e :: r.error == CatchTemplateError(e, engine.value.name, content, req.template, env))
      ensures ExecuteEngineOutcome(r, options.cacheDisabled, old(parsedParams), old(cache), parsedParams, cache,
                                   engine, content, helpers, systemHelpers, data, handleErrors,
                                   entity, entitySet, req.contextId, req.template, env, fuel)
      ensures req.currentPath == EvaluationPath(old(req.currentPath), old(parsedParams), engine, helpers, systemHelpers,
                                                entity, entitySet, req.contextId, env)
    {
      var joinedHelpers := JoinHelpers(systemHelpers, helpers);
      var key := ParamsKey(entity.shortid, joinedHelpers);
      var entries := parsedParams[req.contextId];
      if key in entries {
        match entries[key].settled {
          case None =>
            r := Suspended;
          case Some(awaited) =>
            r := ExecutionFn(awaited, engine, content, data, entity, entitySet, key, req, env, fuel);
        }
      } else {
        r := EnterSandbox(engine, content, joinedHelpers, LineOffset(systemHelpers), data, handleErrors,
                          entity, entitySet, key, req, env, fuel);
      }
    }

    /**
      The first evaluation of a key in `executeEngine`: the registration of
      a pending awaiter, then the sandboxed run.
     */
    method EnterSandbox(engine: Option<EngineImpl>, content: string, joinedHelpers: string, lineOffset: nat,
                        data: Value, handleErrors: bool, entity: Entity, entitySet: string, key: string,
                        req: Request, env: Collaborators, fuel: nat)
      returns (r: Outcome<string>)
      requires req.contextId in parsedParams && key !in parsedParams[req.contextId]
      requires handleErrors ==> engine.Some?
      requires IdOracle(env.nextId)
      modifies this, req`currentPath
      ensures !r.Suspended?
      ensures r.Done? ==> !Contains(r.value, Probe)
      ensures engine.None? ==> r == Threw(UndefinedPropertyError("createContext"))
      ensures options.cacheDisabled && engine.Some? ==> cache.Keys <= {CacheKey(content, engine.value.name)}
      ensures options.cacheDisabled && engine.None? ==> cache == map[]
      ensures engine.Some? && env.runInSandbox(joinedHelpers, lineOffset).SandboxThrew? ==>
                var e := env.runInSandbox(joinedHelpers, lineOffset).error;
                r == Threw(if handleErrors then CatchTemplateError(e, engine.value.name, content, req.template, env) else e)
      ensures handleErrors && r.Threw? ==>
                exists e :: r.error == CatchTemplateError(e, engine.value.name, content, req.template, env)
      ensures engine.None? || env.runInSandbox(joinedHelpers, lineOffset).SandboxThrew? ==>
                && parsedParams == old(parsedParams)[req.contextId := old(parsedParams)[req.contextId][key := Awaiter(None)]]
                && cache == (if options.cacheDisabled then map[] else old(cache))
      ensures engine.Some? && env.runInSandbox(joinedHelpers, lineOffset).Loaded? ==>
                var p := env.runInSandbox(joinedHelpers, lineOffset).params;
                var start := if options.cacheDisabled then map[] else old(cache);
                var settled := if PathResolves(entity, entitySet, env) then Some(p) else None;
                && parsedParams == old(parsedParams)[req.contextId := old(parsedParams)[req.contextId][key := Awaiter(settled)]]
                && cache == ExecutionFnCache(start, content, engine, entity, entitySet, env)
                && HandledOutcome(r, handleErrors, p, engine.value, start, content, data, entity, entitySet,
                                  req.template, env, fuel)
      ensures req.currentPath == (if engine.Some? && env.runInSandbox(joinedHelpers, lineOffset).Loaded?
                                  then PathAfterExecution(old(req.currentPath), entity, entitySet, env)
                                  else old(req.currentPath))
    {
      var entries := parsedParams[req.contextId];
      parsedParams := parsedParams[req.contextId := entries[key := Awaiter(None)]];
      r := RunSandboxed(engine, content, joinedHelpers, lineOffset, data, handleErrors,
                        entity, entitySet, key, req, env, fuel);
      if engine.Some? && env.runInSandbox(joinedHelpers, lineOffset).Loaded? {
        ghost var p := env.runInSandbox(joinedHelpers, lineOffset).params;
        assert ResolveAwaiter(entries[key := Awaiter(None)], key, p) == entries[key := Awaiter(Some(p))];
      }
    }

    /**
      The optional cache reset and the `try`/`catch` of `executeEngine`: the
      sandbox run of the joined helpers and the execution function, and the
      decoration of whatever was thrown.
     */
    method RunSandboxed(engine: Option<EngineImpl>, content: string, joinedHelpers: string, lineOffset: nat,
                        data: Value, handleErrors: bool, entity: Entity, entitySet: string, key: string,
                        req: Request, env: Collaborators, fuel: nat)
      returns (r: Outcome<string>)
      requires req.contextId in parsedParams && key in parsedParams[req.contextId]
      requires handleErrors ==> engine.Some?
      requires IdOracle(env.nextId)
      modifies this, req`currentPath
      ensures !r.Suspended?
      ensures r.Done? ==> !Contains(r.value, Probe)
      ensures engine.None? ==> r == Threw(UndefinedPropertyError("createContext"))
      ensures options.cacheDisabled && engine.Some? ==> cache.Keys <= {CacheKey(content, engine.value.name)}
      ensures options.cacheDisabled && engine.None? ==> cache == map[]
      ensures engine.Some? && env.runInSandbox(joinedHelpers, lineOffset).SandboxThrew? ==>
                var e := env.runInSandbox(joinedHelpers, lineOffset).error;
                r == Threw(if handleErrors then CatchTemplateError(e, engine.value.name, content, req.template, env) else e)
      ensures handleErrors && r.Threw? ==>
                exists e :: r.error == CatchTemplateError(e, engine.value.name, content, req.template, env)
      ensures engine.None? || env.runInSandbox(joinedHelpers, lineOffset).SandboxThrew? ==>
                parsedParams == old(parsedParams) && cache == (if options.cacheDisabled then map[] else old(cache))
      ensures engine.Some? && env.runInSandbox(joinedHelpers, lineOffset).Loaded? ==>
                var p := env.runInSandbox(joinedHelpers, lineOffset).params;
                var start := if options.cacheDisabled then map[] else old(cache);
                && parsedParams == (if PathResolves(entity, entitySet, env)
                                    then old(parsedParams)[req.contextId := ResolveAwaiter(old(parsedParams)[req.contextId], key, p)]
                                    else old(parsedParams))
                && cache == ExecutionFnCache(start, content, engine, entity, entitySet, env)
                && HandledOutcome(r, handleErrors, p, engine.value, start, content, data, entity, entitySet,
                                  req.template, env, fuel)
      ensures req.currentPath == (if engine.Some? && env.runInSandbox(joinedHelpers, lineOffset).Loaded?
                                  then PathAfterExecution(old(req.currentPath), entity, entitySet, env)
                                  else old(req.currentPath))
    {
      if options.cacheDisabled {
        cache := map[];
      }
      var thrown: JsError;
      if engine.None? {
        thrown := UndefinedPropertyError("createContext");
      } else {
        match env.runInSandbox(joinedHelpers, lineOffset) {
          case SandboxThrew(e) =>
            thrown := e;
          case Loaded(sandboxParams) =>
            var res := ExecutionFn(sandboxParams, engine, content, data, entity, entitySet, key, req, env, fuel);
            if !res.Threw? {
              return res;
            }
            thrown := res.error;
        }
      }
      if !handleErrors {
        return Threw(thrown);
      }
      r := Threw(CatchTemplateError(thrown, engine.value.name, content, req.template, env));
    }

    /** `proxy.templatingEngines.evaluate`, as written: the guard tests the requested name. */
    method Evaluate(engines: seq<EngineImpl>, engine: Option<string>, content: string, helpers: Option<string>,
                    data: Value, entity: Entity, entitySet: string,
                    req: Request, env: Collaborators, fuel: nat)
      returns (r: Outcome<string>)
      requires req.contextId in parsedParams
      requires IdOracle(env.nextId)
      modifies this, req`currentPath
      ensures r.Done? ==> !Contains(r.value, Probe)
      ensures !EngineNameGiven(engine) ==>
                r == Threw(EngineNotFoundError(engine)) && parsedParams == old(parsedParams) && cache == old(cache)
      ensures EngineNameGiven(engine) && FindEngineIndex(engines, engine) < 0 ==> !r.Done?
      ensures EngineNameGiven(engine) && FindEngineIndex(engines, engine) < 0 &&
              ParamsKey(entity.shortid, JoinHelpers(req.systemHelpers, helpers)) !in old(parsedParams)[req.contextId] ==>
                r == Threw(UndefinedPropertyError("createContext"))
      ensures EngineNameGiven(engine) ==>
                req.contextId in parsedParams &&
                ParamsKey(entity.shortid, JoinHelpers(req.systemHelpers, helpers)) in parsedParams[req.contextId]
      ensures EngineNameGiven(engine) ==>
                ExecuteEngineOutcome(r, options.cacheDisabled, old(parsedParams), old(cache), parsedParams, cache,
                                     EngineFound(engines, engine), content, helpers, req.systemHelpers, data, false,
                                     entity, entitySet, req.contextId, req.template, env, fuel)
      ensures req.currentPath == (if EngineNameGiven(engine)
                                  then EvaluationPath(old(req.currentPath), old(parsedParams), EngineFound(engines, engine),
                                                      helpers, req.systemHelpers, entity, entitySet, req.contextId, env)
                                  else old(req.currentPath))
    {
      var engineImpl := EngineFound(engines, engine);
      if !EngineNameGiven(engine) {
        return Threw(EngineNotFoundError(engine));
      }
      r := ExecuteEngine(engineImpl, content, helpers, req.systemHelpers, data, false, entity, entitySet, req, env, fuel);
    }

    /** `evaluate` with the guard on the engine found, as its error message intends. */
    method EvaluateChecked(engines: seq<EngineImpl>, engine: Option<string>, content: string, helpers: Option<string>,
                           data: Value, entity: Entity, entitySet: string,
                           req: Request, env: Collaborators, fuel: nat)
      returns (r: Outcome<string>)
      requires req.contextId in parsedParams
      requires IdOracle(env.nextId)
      modifies this, req`currentPath
      ensures r.Done? ==> !Contains(r.value, Probe)
      ensures FindEngineIndex(engines, engine) < 0 ==>
                r == Threw(EngineNotFoundError(engine)) && parsedParams == old(parsedParams) && cache == old(cache)
      ensures FindEngineIndex(engines, engine) >= 0 ==>
                req.contextId in parsedParams &&
                ParamsKey(entity.shortid, JoinHelpers(req.systemHelpers, helpers)) in parsedParams[req.contextId]
      ensures FindEngineIndex(engines, engine) >= 0 ==>
                ExecuteEngineOutcome(r, options.cacheDisabled, old(parsedParams), old(cache), parsedParams, cache,
                                     EngineFound(engines, engine), content, helpers, req.systemHelpers, data, false,
                                     entity, entitySet, req.contextId, req.template, env, fuel)
      ensures req.currentPath == (if FindEngineIndex(engines, engine) >= 0
                                  then EvaluationPath(old(req.currentPath), old(parsedParams), EngineFound(engines, engine),
                                                      helpers, req.systemHelpers, entity, entitySet, req.contextId, env)
                                  else old(req.currentPath))
    {
      var found := FindEngineIndex(engines, engine);
      if found < 0 {
        return Threw(EngineNotFoundError(engine));
      }
      r := ExecuteEngine(EngineFound(engines, engine), content, helpers, req.systemHelpers, data, false, entity, entitySet, req, env, fuel);
    }

    /** The function the worker returns: one top-level template run with its dedup map. */
    method ExecuteRequest(engine: EngineImpl, req: Request, env: Collaborators, fuel: nat)
      returns (r: Outcome<string>)
      requires IdOracle(env.nextId)
      modifies this, req`data, req`currentPath
      ensures parsedParams == old(parsedParams) - {req.contextId}
      ensures req.data == old(req.data)["__appDirectory" := options.appDirectory]
                                       ["__rootDirectory" := options.rootDirectory]
                                       ["__parentModuleDirectory" := options.parentModuleDirectory]
      ensures req.currentPath == old(req.currentPath)
      ensures !r.Suspended?
      ensures r.Done? ==> !Contains(r.value, Probe)
      ensures r.Threw? ==>
                exists e :: r.error == CatchTemplateError(e, engine.name, req.template.content, req.template, env)
      ensures options.cacheDisabled ==> cache.Keys <= {CacheKey(req.template.content, engine.name)}
      ensures exists during :: ExecuteEngineOutcome(r, options.cacheDisabled, OpenContext(old(parsedParams), req.contextId),
                                                    old(cache), during, cache, Some(engine), req.template.content,
                                                    req.template.helpers, req.systemHelpers, Record(req.data), true,
                                                    req.template, "templates", req.contextId, req.template, env, fuel)
    {
      parsedParams := OpenContext(parsedParams, req.contextId);
      req.data := req.data["__appDirectory" := options.appDirectory];
      req.data := req.data["__rootDirectory" := options.rootDirectory];
      req.data := req.data["__parentModuleDirectory" := options.parentModuleDirectory];
      r := ExecuteEngine(Some(engine), req.template.content, req.template.helpers, req.systemHelpers,
                         Record(req.data), true, req.template, "templates", req, env, fuel);
      ghost var during := parsedParams;
      parsedParams := parsedParams - {req.contextId};
      assert ExecuteEngineOutcome(r, options.cacheDisabled, OpenContext(old(parsedParams), req.contextId),
                                  old(cache), during, cache, Some(engine), req.template.content,
                                  req.template.helpers, req.systemHelpers, Record(req.data), true,
                                  req.template, "templates", req.contextId, req.template, env, fuel);
    }
  }
}

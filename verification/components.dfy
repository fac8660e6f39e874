/**
  The `component` template helper: it finds a component entity by path
  (once per path, through a cache kept for the whole sandbox), evaluates it
  with the templating runtime in the caller's data context, and decorates an
  error the component's evaluation throws.
 */
module Components {
  import opened JsValues
  import opened Reports
  import opened AsyncHelpers
  import opened ErrorEnrichment
  import opened ExecuteEngine

  /** The property name an object key `path` becomes: `String(path)`. */
  function PropertyKey(path: Value): string {
    Stringify(path)
  }

  const PathRequiredMessage: string := "component helper requires path argument"

  function NotFoundMessage(path: Value): string {
    "Component " + Stringify(path) + " not found"
  }

  /**
    `folders.resolveEntityFromPath(path, 'components', { currentPath })`:
    the entity found, none, or a thrown error.
   */
  type ComponentResolver = (Value, Value) -> Result<Option<Entity>>

  /**
    The lookup at the top of `component`: a cached entity is used as it is;
    otherwise a nullish path is refused, the resolver is asked, and the
    entity it finds is cached under the path.
   */
  function LookupComponent(cache: map<string, Entity>, path: Value, currentPath: Value,
                           resolve: ComponentResolver): (l: Result<(Entity, map<string, Entity>)>)
    ensures PropertyKey(path) in cache ==> l == Ok((cache[PropertyKey(path)], cache))
    ensures PropertyKey(path) !in cache && IsNullish(path) ==> l == Err(PlainError(PathRequiredMessage))
    ensures PropertyKey(path) !in cache && !IsNullish(path) ==>
              match resolve(path, currentPath)
              case Err(e) => l == Err(e)
              case Ok(None) => l == Err(PlainError(NotFoundMessage(path)))
              case Ok(Some(entity)) => l == Ok((entity, cache[PropertyKey(path) := entity]))
    ensures l.Ok? ==> var (entity, after) := l.value;
              && PropertyKey(path) in after && after[PropertyKey(path)] == entity
              && after.Keys == cache.Keys + {PropertyKey(path)}
              && forall k :: k in cache ==> after[k] == cache[k]
  {
    var key := PropertyKey(path);
    if key in cache then Ok((cache[key], cache))
    else if IsNullish(path) then Err(PlainError(PathRequiredMessage))
    else match resolve(path, currentPath)
      case Err(e) => Err(e)
      case Ok(None) => Err(PlainError(NotFoundMessage(path)))
      case Ok(Some(entity)) => Ok((entity, cache[key := entity]))
  }

  /** After a successful lookup, the next one with the same path yields the same entity without asking any resolver. */
  lemma SecondLookupSkipsResolver(cache: map<string, Entity>, path: Value, currentPath: Value,
                                  resolve: ComponentResolver, laterPath: Value, laterResolve: ComponentResolver)
    requires LookupComponent(cache, path, currentPath, resolve).Ok?
    ensures var (entity, after) := LookupComponent(cache, path, currentPath, resolve).value;
            LookupComponent(after, path, laterPath, laterResolve) == Ok((entity, after))
  {
  }

  /**
    The cache is keyed by the string a path converts to, so once some path
    converting to "null" has been cached, a `null` path finds that entity
    instead of being refused.
   */
  lemma NullPathFindsNullKey(cache: map<string, Entity>, currentPath: Value, resolve: ComponentResolver)
    requires "null" in cache
    ensures LookupComponent(cache, Null, currentPath, resolve) == Ok((cache["null"], cache))
  {
  }

  /**
    The data the component is evaluated with: the helper's `this` under
    Handlebars, `this.data` under JsRender (which wins when both are
    detected), and `undefined` otherwise.
   */
  function DataContext(isHandlebars: bool, isJsRender: bool, self: Value, selfData: Value): (d: Value)
    ensures isJsRender ==> d == selfData
    ensures !isJsRender && isHandlebars ==> d == self
    ensures !isJsRender && !isHandlebars ==> d == Undefined
  {
    var current := if isHandlebars then self else Undefined;
    if isJsRender then selfData else current
  }

  /**
    What the `try`/`catch` around `evaluate` yields for a component: a
    falsy engine name is refused with the 400 error before anything runs;
    any other name has the outcome of `executeEngine` with the engine found
    (if any), errors not handled and `entitySet: 'components'`, with a
    thrown error decorated as the component's, and leaves the current path
    that evaluation leaves.
   */
  ghost predicate ComponentEvaluation(r: Outcome<string>, cacheDisabled: bool,
                                      parsed0: map<string, map<string, Awaiter>>, cache0: map<string, CompiledTemplate>,
                                      parsed1: map<string, map<string, Awaiter>>, cache1: map<string, CompiledTemplate>,
                                      engines: seq<EngineImpl>, entity: Entity, path: Value, data: Value,
                                      systemHelpers: string, contextId: string, template: Entity,
                                      currentPath0: Value, currentPath1: Value, env: Collaborators, fuel: nat)
    requires contextId in parsed0
  {
    if !EngineNameGiven(entity.engine) then
      && r == Threw(EnrichComponentError(EngineNotFoundError(entity.engine), path, entity))
      && parsed1 == parsed0 && cache1 == cache0 && currentPath1 == currentPath0
    else
      && currentPath1 == EvaluationPath(currentPath0, parsed0, EngineFound(engines, entity.engine), entity.helpers,
                                        systemHelpers, entity, "components", contextId, env)
      && exists o :: ExecuteEngineOutcome(o, cacheDisabled, parsed0, cache0, parsed1, cache1,
                                       EngineFound(engines, entity.engine), entity.content, entity.helpers,
                                       systemHelpers, data, false, entity, "components", contextId, template, env, fuel)
                  && r == (if o.Threw? then Threw(EnrichComponentError(o.error, path, entity)) else o)
  }

  /** The helper together with the component cache it keeps across calls. */
  class ComponentHelper {
    var componentCache: map<string, Entity>   // __componentCache

    constructor ()
      ensures componentCache == map[]
    {
      componentCache := map[];
    }

    /**
      `component(path, options)`: look the entity up, then evaluate it in the
      caller's data context.
     */
    method Component(path: Value, isHandlebars: bool, isJsRender: bool, self: Value, selfData: Value,
                     resolve: ComponentResolver, runtime: TemplatingRuntime, engines: seq<EngineImpl>,
                     req: Request, env: Collaborators, fuel: nat)
      returns (r: Outcome<string>)
      requires req.contextId in runtime.parsedParams
      requires IdOracle(env.nextId)
      modifies this, runtime, req`currentPath
      ensures r.Done? ==> !Contains(r.value, Probe)
      ensures var l := LookupComponent(old(componentCache), path, old(req.currentPath), resolve);
              l.Err? ==> r == Threw(l.error) && componentCache == old(componentCache)
                         && runtime.cache == old(runtime.cache)
                         && runtime.parsedParams == old(runtime.parsedParams)
                         && req.currentPath == old(req.currentPath)
      ensures var l := LookupComponent(old(componentCache), path, old(req.currentPath), resolve);
              l.Ok? ==>
                && componentCache == l.value.1
                && ComponentEvaluation(r, runtime.options.cacheDisabled, old(runtime.parsedParams), old(runtime.cache),
                                       runtime.parsedParams, runtime.cache, engines, l.value.0, path,
                                       DataContext(isHandlebars, isJsRender, self, selfData),
                                       req.systemHelpers, req.contextId, req.template,
                                       old(req.currentPath), req.currentPath, env, fuel)
    {
      var found := LookupComponent(componentCache, path, req.currentPath, resolve);
      assert found == LookupComponent(old(componentCache), path, old(req.currentPath), resolve);
      if found.Err? {
        r := Threw(found.error);
      } else {
        componentCache := found.value.1;
        var data := DataContext(isHandlebars, isJsRender, self, selfData);
        ghost var parsed0, cache0, currentPath0 := runtime.parsedParams, runtime.cache, req.currentPath;
        assert parsed0 == old(runtime.parsedParams) && cache0 == old(runtime.cache);
        assert currentPath0 == old(req.currentPath);
        r := EvaluateComponent(found.value.0, path, data, runtime, engines, req, env, fuel);
        assert ComponentEvaluation(r, runtime.options.cacheDisabled, parsed0, cache0,
                                   runtime.parsedParams, runtime.cache, engines, found.value.0, path, data,
                                   req.systemHelpers, req.contextId, req.template,
                                   currentPath0, req.currentPath, env, fuel);
        assert componentCache == found.value.1;
      }
    }

    /**
      The `try`/`catch` of `component`: `evaluate` as written, with the
      entity's engine, content and helpers and `entitySet: 'components'`, and
      the component decoration of what it throws.
     */
    method EvaluateComponent(entity: Entity, path: Value, data: Value, runtime: TemplatingRuntime,
                             engines: seq<EngineImpl>, req: Request, env: Collaborators, fuel: nat)
      returns (r: Outcome<string>)
      requires req.contextId in runtime.parsedParams
      requires IdOracle(env.nextId)
      modifies runtime, req`currentPath
      ensures r.Done? ==> !Contains(r.value, Probe)
      ensures r.Threw? ==> exists e :: r.error == EnrichComponentError(e, path, entity)
      ensures !EngineNameGiven(entity.engine) ==>
                r == Threw(EnrichComponentError(EngineNotFoundError(entity.engine), path, entity))
      ensures EngineNameGiven(entity.engine) ==>
                req.contextId in runtime.parsedParams &&
                ParamsKey(entity.shortid, JoinHelpers(req.systemHelpers, entity.helpers)) in runtime.parsedParams[req.contextId]
      ensures EngineNameGiven(entity.engine) && FindEngineIndex(engines, entity.engine) < 0 ==> !r.Done?
      ensures EngineNameGiven(entity.engine) && FindEngineIndex(engines, entity.engine) < 0 &&
              ParamsKey(entity.shortid, JoinHelpers(req.systemHelpers, entity.helpers))
                !in old(runtime.parsedParams)[req.contextId] ==>
                r == Threw(EnrichComponentError(UndefinedPropertyError("createContext"), path, entity))
      ensures ComponentEvaluation(r, runtime.options.cacheDisabled, old(runtime.parsedParams), old(runtime.cache),
                                  runtime.parsedParams, runtime.cache, engines, entity, path, data,
                                  req.systemHelpers, req.contextId, req.template,
                                  old(req.currentPath), req.currentPath, env, fuel)
      ensures req.currentPath == (if EngineNameGiven(entity.engine)
                                  then EvaluationPath(old(req.currentPath), old(runtime.parsedParams),
                                                      EngineFound(engines, entity.engine), entity.helpers,
                                                      req.systemHelpers, entity, "components", req.contextId, env)
                                  else old(req.currentPath))
    {
      ghost var parsed0, cache0 := runtime.parsedParams, runtime.cache;
      var evaluated := runtime.Evaluate(engines, entity.engine, entity.content, entity.helpers, data,
                                        entity, "components", req, env, fuel);
      r := if evaluated.Threw? then Threw(EnrichComponentError(evaluated.error, path, entity)) else evaluated;
      assert EngineNameGiven(entity.engine) ==>
               ExecuteEngineOutcome(evaluated, runtime.options.cacheDisabled,
                                    parsed0, cache0, runtime.parsedParams, runtime.cache,
                                    EngineFound(engines, entity.engine), entity.content, entity.helpers,
                                    req.systemHelpers, data, false, entity, "components", req.contextId,
                                    req.template, env, fuel);
    }
  }
}

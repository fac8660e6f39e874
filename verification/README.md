# jsreport template execution, modelled in Dafny

This project models the part of the jsreport worker that renders a template.
It also models three small extensions that plug into that process.

- **Template execution** (`executeEngine.js`). A request runs its template through a templating engine inside the sandbox. Helpers may return promises, so every top-level helper is wrapped:
  - a wrapped helper whose result is a thenable parks it under a fresh id and returns the placeholder `{#asyncHelperResult <id>}`;
  - after rendering, the parked results are awaited and the placeholders are replaced by their text.

  Compiled templates sit in a cache shared by all requests, keyed by `template:<content>:<engine name>`. Each request has a dedup map, so that only the first evaluation of a template/helpers combination runs the helper code in the sandbox. Later evaluations of the same combination await its result. Errors of the top-level run are decorated with the engine, the template path and a snapshot of the template. `templatingEngines.evaluate` lets helpers evaluate further content.
- **The `component` helper** (`jsreport-components/static/helpers.js`). It resolves a component by path, once per path, and evaluates it in the caller's data context. It decorates the errors of that evaluation with the component's snapshot.
- **The browser-client extension** (`jsreport-browser-client/lib/worker.js`). A listener adds the `browserClientLink` helper to the system helpers. The `html-with-browser-client` recipe inserts a script tag before the first `</body\s*>`, or prepends it when there is none.
- **The electron-pdf recipe** (`jsreport-electron-pdf/lib/recipe.js`). It maps the template's electron options to conversion options, defaulting each one exactly when it is null or undefined, and records the result on the response.

How the model is built:
- Values in the JavaScript sense are a datatype (`JsValues.Value`).
- A thrown error is a value (`JsValues.JsError`). A function that can throw returns `Result` or `Outcome`.
- Objects the source updates in place are classes:
  - the request and the response;
  - the runtime, holding the compile cache and the dedup maps;
  - the broker, holding `asyncResultMap` and `resolvedResultsMap`;
  - the component helper, holding its cache.
- The code the model cannot see is passed in as function-typed parameters:
  - the engines' `compile` and `execute`;
  - the sandbox;
  - the folder lookups;
  - `JSON.parse`;
  - the converter;
  - the id generator.

Files:
- `js_values.dfy`: values, errors and the string operations used.
- `reports.dfy`: the entity and the request/response classes.
- `async_helpers.dfy`: the placeholder protocol.
- `error_enrichment.dfy`: the two decoration policies.
- `execute_engine.dfy`: keys, the compile cache, the dedup map and the runtime class.
- `components.dfy`, `browser_client.dfy` and `electron_pdf.dfy`: the three extensions.

## Model

| member | source | states |
|---|---|---|
| JsValues.LastIndexOf | packages/jsreport-core/lib/worker/render/executeEngine.js:74 | the result is -1 or the position of the character, and no later position holds the character |
| AsyncHelpers.AsyncResultBroker.constructor | packages/jsreport-core/lib/worker/render/executeEngine.js:77-99 | a run starts with no parked and no resolved result |
| AsyncHelpers.AsyncResultBroker.CallWrapped | packages/jsreport-core/lib/worker/render/executeEngine.js:185-199 | a nullish or non-thenable result is returned unchanged and parks nothing; a thenable yields exactly the placeholder of the fresh id, and the parked map gains exactly that id bound to that thenable |
| AsyncHelpers.AsyncResultBroker.Drain | packages/jsreport-core/lib/worker/render/executeEngine.js:99-105 | it succeeds exactly when every parked result is fulfilled; then nothing stays parked and every drained id is resolved to its text; otherwise the error thrown is the rejection of some parked result |
| AsyncHelpers.BraceFreeRun | packages/jsreport-core/lib/worker/render/executeEngine.js:108 | the length of the maximal run without `{` or `}`, which is what `[^{}]+` consumes |
| AsyncHelpers.MatchAt | packages/jsreport-core/lib/worker/render/executeEngine.js:108 | a captured id is non-empty and brace-free, and the text starts with that id's placeholder |
| AsyncHelpers.PlaceholderIsMatched | packages/jsreport-core/lib/worker/render/executeEngine.js:108 | a placeholder for a well-formed id at the start of the text is matched, with exactly that id captured |
| AsyncHelpers.Lookup | packages/jsreport-core/lib/worker/render/executeEngine.js:110 | an id's resolved text, or the text `undefined` for an id with no resolved result |
| AsyncHelpers.ReplacePass | packages/jsreport-core/lib/worker/render/executeEngine.js:108-111 | when the text starts with a placeholder, the pass starts with that id's text |
| AsyncHelpers.PassKeepsMarkerFreeText | packages/jsreport-core/lib/worker/render/executeEngine.js:107-111 | a pass over text without `{#asyncHelperResult` returns it unchanged |
| AsyncHelpers.Settle | packages/jsreport-core/lib/worker/render/executeEngine.js:107-112 | whenever the substitution loop ends, no `{#asyncHelperResult` is left in the text |
| AsyncHelpers.SubstitutePlaceholders | packages/jsreport-core/lib/worker/render/executeEngine.js:107-112 | the loop computes the bounded substitution `Settle` |
| AsyncHelpers.PassCopiesText | packages/jsreport-core/lib/worker/render/executeEngine.js:108 | one replace pass copies text that holds no marker |
| AsyncHelpers.PassReplacesPlaceholder | packages/jsreport-core/lib/worker/render/executeEngine.js:108-111 | one replace pass turns a placeholder into the resolved text of its id, or `undefined` when the id is missing |
| AsyncHelpers.PassFillsRendered | packages/jsreport-core/lib/worker/render/executeEngine.js:107-111 | on text made of marker-free pieces and placeholders, one pass gives the reference result with every placeholder replaced |
| AsyncHelpers.OnePassSettles | packages/jsreport-core/lib/worker/render/executeEngine.js:107-112 | when the substituted texts bring no new marker, the loop stops after one pass with the reference result |
| ErrorEnrichment.EnrichTemplateError | packages/jsreport-core/lib/worker/render/executeEngine.js:156-181 | the message gets the engine/path prefix; status and weak are kept; the property becomes `helpers` unless the error has an entity or is tagged `content`; a nested entity is kept; a snapshot is attached exactly when there is no entity, the path is not `anonymous` and the template was found |
| ErrorEnrichment.EnrichComponentError | packages/jsreport-components/static/helpers.js:40-53 | an error with an entity passes unchanged; otherwise it gets the component prefix, the component snapshot, and `helpers` unless already tagged `content` |
| ErrorEnrichment.ComponentErrorChainsThroughTemplate | packages/jsreport-core/lib/worker/render/executeEngine.js:156-176 | a component error decorated again by the template run keeps the component snapshot and tag, and its message reads template line, component line, cause |
| ExecuteEngine.ParamsKeySeparatesHelpers | packages/jsreport-core/lib/worker/render/executeEngine.js:67-68 | for one entity, two different joined helper sources never share a dedup key |
| ExecuteEngine.ParamsKeyParts | packages/jsreport-core/lib/worker/render/executeEngine.js:67-68 | the dedup key starts with `entity:`, the shortid or `anonymous` and `:helpers:`, and the rest is the whole joined helper code (system helpers, line break, helpers) |
| ExecuteEngine.CacheKeySeparatesContent | packages/jsreport-core/lib/worker/render/executeEngine.js:79 | for one engine, two different contents never share a cache key |
| ExecuteEngine.CacheKeyParts | packages/jsreport-core/lib/worker/render/executeEngine.js:79 | the cache key is `template:`, the whole content, a colon and the engine name |
| ExecuteEngine.UserHelpersStartAfterOffset | packages/jsreport-core/lib/worker/render/executeEngine.js:142-144 | the joined code starts with the system helpers and a line break, and the reported line offset is the number of line breaks before the user's helpers |
| ExecuteEngine.ParentPath | packages/jsreport-core/lib/worker/render/executeEngine.js:74 | the current path is a prefix of the entity path: empty when the path has no `/`, otherwise everything before its last `/` |
| ExecuteEngine.ParentOfChild | packages/jsreport-core/lib/worker/render/executeEngine.js:74 | the current path of `dir/name` is `dir` |
| ExecuteEngine.PathAfterExecution | packages/jsreport-core/lib/worker/render/executeEngine.js:71-75 | templates keep the current path, as does a failed folder lookup; otherwise it is the folder of the entity path, a prefix of it |
| ExecuteEngine.TemplateRunKeepsCurrentPath | packages/jsreport-core/lib/worker/render/executeEngine.js:71-75 | an evaluation for `templates` never changes the current path |
| ExecuteEngine.ComponentRunSetsParentFolder | packages/jsreport-core/lib/worker/render/executeEngine.js:71-75 | for a component at `dir/name`, an evaluation that runs the execution function leaves `dir` as the current path, and one that does not leaves the path alone |
| ExecuteEngine.CompileThroughCache | packages/jsreport-core/lib/worker/render/executeEngine.js:79-90 | a hit returns the stored handle, compiles nothing and keeps the cache; a miss compiles, returns what compile returned with a failure tagged `content`, and stores only a success under the key; other keys are untouched |
| ExecuteEngine.CacheHitReturnsStoredHandle | packages/jsreport-core/lib/worker/render/executeEngine.js:81-90 | a hit does not compile and returns the stored template |
| ExecuteEngine.SecondLookupReusesHandle | packages/jsreport-core/lib/worker/render/executeEngine.js:81-90 | after a successful compile, the same content and engine reuse the template without compiling |
| ExecuteEngine.FailedCompileIsRetried | packages/jsreport-core/lib/worker/render/executeEngine.js:82-87 | a failed compile is not cached, so the next lookup compiles again |
| ExecuteEngine.ResolveAwaiter | packages/jsreport-core/lib/worker/render/executeEngine.js:78 | resolving settles the awaiter once; later resolutions change nothing, and other keys are untouched |
| ExecuteEngine.ClaimKey | packages/jsreport-core/lib/worker/render/executeEngine.js:121-131 | a missing key registers a pending awaiter; a present key is awaited and the map is unchanged |
| ExecuteEngine.OpenContext | packages/jsreport-core/lib/worker/render/executeEngine.js:44 | the request's dedup entry starts empty, and every other request's entry is kept |
| ExecuteEngine.OnlyFirstClaimRegisters | packages/jsreport-core/lib/worker/render/executeEngine.js:119-131 | only the first claim registers; later claims wait, then see the parameters of the first resolution |
| ExecuteEngine.FindEngineIndex | packages/jsreport-core/lib/worker/render/executeEngine.js:23 | the index of the first engine with the requested name, or -1 when none has it |
| ExecuteEngine.EngineFound | packages/jsreport-core/lib/worker/render/executeEngine.js:23 | an engine is found exactly when one has the requested name, and it has that name |
| ExecuteEngine.UnknownEngineMissesGuard | packages/jsreport-core/lib/worker/render/executeEngine.js:23-29 | any non-empty name that no engine has passes the guard while no engine is found |
| ExecuteEngine.ParkedIdsAreEarlier | packages/jsreport-core/lib/worker/render/executeEngine.js:194-195 | the id of a later call is never already parked |
| ExecuteEngine.SyncHelpersPassThrough | packages/jsreport-core/lib/worker/render/executeEngine.js:188-192 | when no helper returns a thenable, nothing is parked and the engine sees the helpers' own results |
| ExecuteEngine.InvokeWrappedHelpers | packages/jsreport-core/lib/worker/render/executeEngine.js:185-199 | the engine's helper calls park the thenables under their ids and hand back the results or placeholders |
| ExecuteEngine.WrapTopLevelFunctions | packages/jsreport-core/lib/worker/render/executeEngine.js:92-96 | every top-level function is wrapped under its own name, and no other name is present |
| ExecuteEngine.CatchTemplateError | packages/jsreport-core/lib/worker/render/executeEngine.js:156-170 | a template without an id is reported as `anonymous`; a failing lookup throws its own error; otherwise the message is prefixed with the resolved path and a snapshot is present exactly when there was one or the template was found |
| ExecuteEngine.AsyncResultsAreInlined | packages/jsreport-core/lib/worker/render/executeEngine.js:98-112 | when the engine's text is laid out around the placeholders and all results are fulfilled with marker-free text, the run renders each placeholder as its awaited text |
| ExecuteEngine.SyncRenderIsEngineOutput | packages/jsreport-core/lib/worker/render/executeEngine.js:91-116 | when no helper returns a thenable and the engine's text holds no marker, the run renders exactly the engine's output |
| ExecuteEngine.TemplatingRuntime.constructor | packages/jsreport-core/lib/worker/render/executeEngine.js:12-14 | the cache and the dedup maps start empty |
| ExecuteEngine.TemplatingRuntime.ExecutionFn | packages/jsreport-core/lib/worker/render/executeEngine.js:70-117 | a failing path lookup throws before resolving the awaiter and keeps the current path; otherwise the current path becomes `PathAfterExecution`: unchanged for templates, the entity's folder for other entity sets; the awaiter is resolved; a missing engine throws reading `name`; the rest is the render (`ExecutionFnOutcome`, `RendersAs`) |
| ExecuteEngine.TemplatingRuntime.RenderWithEngine | packages/jsreport-core/lib/worker/render/executeEngine.js:79-116 | the cache is the get-or-compile result; the outcome is the compile error, the execute error, a rejection of some parked result, or the settled text, which holds no marker |
| ExecuteEngine.TemplatingRuntime.ExecuteEngine | packages/jsreport-core/lib/worker/render/executeEngine.js:66-131 | the key ends up registered; a pending key waits and changes nothing; a resolved key runs the execution function with the parameters it was resolved with and changes no awaiter; a first call never waits, registers the awaiter and, once the helpers load and the path resolves, leaves it resolved with their parameters; the outcome and the new cache are those of the execution function (`ExecuteEngineOutcome`); the current path is `EvaluationPath`: the entity's folder when the execution function runs for a component, the old path otherwise |
| ExecuteEngine.TemplatingRuntime.EnterSandbox | packages/jsreport-core/lib/worker/render/executeEngine.js:124-182 | the first evaluation of a key registers a pending awaiter; once the helpers load, it is left resolved with their parameters when the folder lookup succeeds, and pending otherwise; the outcome, the cache and the error decoration are those of the sandboxed run; the current path moves to the entity's folder only when the helpers load |
| ExecuteEngine.TemplatingRuntime.RunSandboxed | packages/jsreport-core/lib/worker/render/executeEngine.js:132-182 | a disabled cache is cleared first; a missing engine throws a TypeError reading `createContext`; a sandbox error is decorated when errors are handled and rethrown raw otherwise; once the helpers load, the outcome is the execution function's, with a thrown error decorated when errors are handled (`HandledOutcome`); the current path is the execution function's when the helpers load, and unchanged otherwise |
| ExecuteEngine.TemplatingRuntime.Evaluate | packages/jsreport-core/lib/worker/render/executeEngine.js:22-39 | a falsy engine name throws the 400 error with no state change; any other name runs `executeEngine` with the engine found, if any, and errors not handled, and has its outcome; an unknown name never renders and, on a first call, throws a TypeError; the current path is unchanged after the 400 error and `EvaluationPath` otherwise |
| ExecuteEngine.TemplatingRuntime.EvaluateChecked | packages/jsreport-core/lib/worker/render/executeEngine.js:22-39 | a name with no engine throws the 400 error with no state change; otherwise the key is registered, the outcome is that of `executeEngine` with the engine found, and the current path is `EvaluationPath` |
| ExecuteEngine.TemplatingRuntime.ExecuteRequest | packages/jsreport-core/lib/worker/render/executeEngine.js:43-64 | the request's dedup entry is gone afterwards, whatever the outcome; the three directory keys are set in `data`; the run never waits; its outcome and cache are those of `executeEngine` on the template with a fresh dedup entry and errors handled, so every error is what the template catch yields; a disabled cache holds at most this template when its helpers evaluate nothing (see "## Left out"); the current path is unchanged, since templates do not move it |
| Components.LookupComponent | packages/jsreport-components/static/helpers.js:5-16 | a cached path needs no resolver; a nullish path is refused; a resolver error propagates; not found throws `Component <path> not found` and caches nothing; a found entity is cached under the path, and other entries are kept |
| Components.SecondLookupSkipsResolver | packages/jsreport-components/static/helpers.js:5-16 | after a successful lookup the same path yields the same entity, whatever resolver is given |
| Components.NullPathFindsNullKey | packages/jsreport-components/static/helpers.js:5-8 | a `null` path finds an entity cached under the key `"null"` instead of being refused |
| Components.DataContext | packages/jsreport-components/static/helpers.js:18-28 | JsRender gives `this.data` and wins; else Handlebars gives `this`; else undefined |
| Components.ComponentHelper.constructor | packages/jsreport-components/static/helpers.js:2 | the component cache starts empty |
| Components.ComponentHelper.Component | packages/jsreport-components/static/helpers.js:3-55 | lookup errors leave all state alone; the cache becomes the lookup's; the entity found is evaluated in the caller's data context with the outcome `ComponentEvaluation` states, which includes the current path: unchanged after the 400 error, otherwise `EvaluationPath` for the component |
| Components.ComponentHelper.EvaluateComponent | packages/jsreport-components/static/helpers.js:30-54 | a falsy engine name gives the decorated 400 error; any other name registers the key and has the outcome of `executeEngine` through `evaluate` as written, with `components` and errors not handled, its thrown errors decorated as the component's (`ComponentEvaluation`); an unknown engine never renders and, on a first call, gives the decorated `createContext` TypeError; the current path is unchanged after the 400 error and `EvaluationPath` for the component otherwise |
| BrowserClient.OnBeforeRender | packages/jsreport-browser-client/lib/worker.js:2-10 | the system helpers become the old ones followed by the link helper and a line break |
| BrowserClient.ListenerOnlyAppends | packages/jsreport-browser-client/lib/worker.js:3-9 | the old system helpers stay a prefix, the result ends with a line break, and the user helpers' line offset grows by the added lines |
| BrowserClient.BrowserClientLink | packages/jsreport-browser-client/lib/worker.js:5-8 | it throws exactly when http or baseUrl is missing; otherwise it returns the base URL followed by the UMD path |
| BrowserClient.ScriptTag | packages/jsreport-browser-client/lib/worker.js:23 | a script element whose `src` is the base URL followed by the UMD path, and nothing else |
| BrowserClient.ScriptTagLoadsLink | packages/jsreport-browser-client/lib/worker.js:23 | the inserted tag loads the same URL as `browserClientLink` |
| BrowserClient.WhitespaceRun | packages/jsreport-browser-client/lib/worker.js:25 | the maximal run that `\s*` consumes |
| BrowserClient.FindEndBody | packages/jsreport-browser-client/lib/worker.js:25 | the first position where `</body\s*>` matches, or -1 when there is none |
| BrowserClient.InsertionPoint | packages/jsreport-browser-client/lib/worker.js:25-26 | the first closing body tag, or the start of the content when there is none |
| BrowserClient.InsertScript | packages/jsreport-browser-client/lib/worker.js:26 | the output is the content with the script spliced in once at the insertion point; its length grows by the script's length |
| BrowserClient.RemovingScriptRestoresContent | packages/jsreport-browser-client/lib/worker.js:26 | cutting the script back out restores the content |
| BrowserClient.ScriptPrecedesBodyClose | packages/jsreport-browser-client/lib/worker.js:25-26 | the closing body tag follows right after the inserted script |
| BrowserClient.NoBodyClosePrepends | packages/jsreport-browser-client/lib/worker.js:26 | without a closing body tag the script is prepended |
| BrowserClient.Recipe | packages/jsreport-browser-client/lib/worker.js:12-27 | the HTML meta is set before the check; a missing base URL gives a weak 400 error and leaves the content unchanged; otherwise the content gets the script |
| ElectronPdf.ParseIfJson | packages/jsreport-electron-pdf/lib/recipe.js:53-63 | an object (or null) is kept; anything else is parsed, and kept when parsing throws |
| ElectronPdf.ObjectFormatIgnoresParser | packages/jsreport-electron-pdf/lib/recipe.js:54-56 | an object format never reaches the parser |
| ElectronPdf.OrDefault | packages/jsreport-electron-pdf/lib/recipe.js:17-31 | the fallback exactly when the option is null or undefined, the option itself otherwise |
| ElectronPdf.ElectronFor | packages/jsreport-electron-pdf/lib/recipe.js:5-6 | missing options become `{}`; the timeout is always the report timeout; other fields are kept |
| ElectronPdf.ConversionOptionsFor | packages/jsreport-electron-pdf/lib/recipe.js:13-33 | each default applies exactly when its option is nullish; `javascript` is the negation of `blockJavaScript`; the format goes through `parseIfJSON`; the ready-variable name is fixed |
| ElectronPdf.DefaultsForMissingOptions | packages/jsreport-electron-pdf/lib/recipe.js:17-31 | without options: report timeout, no wait, JavaScript on, backgrounds printed, portrait |
| ElectronPdf.Recipe | packages/jsreport-electron-pdf/lib/recipe.js:5-49 | the template keeps the fixed options even when the conversion fails; on success the meta gets the PDF type, the extension and the converter's page count, and the content is the conversion output |

## Left out

- Errors are values. The source mutates the caught error in place. Aliasing of that object, and the shallow copy `{ ...e.entity }`, are not modelled; on values that copy is the identity.
- The LRU eviction of the compile cache and its bound of 100 entries belong to `lru-cache`. The cache is a finite map with has, set, get and reset.
- The id generator (`nanoid(7)`) is a parameter `nextId`. Its ids are assumed to be distinct and free of braces (`IdOracle`). Randomness and collisions are not modelled.
- Promises and concurrency are left out:
  - the dedup handshake is sequential, and a call that would await an unresolved awaiter ends as `Suspended`;
  - the drain loop awaits parked results one at a time in an arbitrary order;
  - helpers that park new results while earlier ones are being awaited are not modelled;
  - `Promise.all`'s choice of which rejection wins is not modelled (any rejected result may be reported).
- AsyncHelpers.SubstitutePlaceholders: the source loop can spin forever on a malformed marker. The model allows `fuel` passes and reports `OutOfFuel` after that.
- `reporter.runInSandbox`, `require`, the console, `engine.createContext` and `onRequire` are left out. The sandbox is a function from the joined helper code and the line offset to the top-level functions or an error.
- The engines' `compile` and `execute`, the folder lookups, `JSON.parse` and the electron converter are function parameters. Only what the model's code does with their results is modelled.
- ExecuteEngine.TemplatingRuntime.ExecuteEngine requires an engine whenever errors are handled. Errors are handled only by the request entry, which forwards its `engine` parameter (executeEngine.js:43-51); the caller of the request entry is outside this model and is assumed to pass a found engine.
- ExecuteEngine.ExecutionFnCache, ExecuteEngine.ExecuteEngineOutcome, ExecuteEngine.TemplatingRuntime.ExecutionFn, ExecuteEngine.TemplatingRuntime.RenderWithEngine, ExecuteEngine.TemplatingRuntime.EnterSandbox, ExecuteEngine.TemplatingRuntime.RunSandboxed, ExecuteEngine.TemplatingRuntime.ExecuteEngine, ExecuteEngine.TemplatingRuntime.Evaluate, ExecuteEngine.TemplatingRuntime.EvaluateChecked, ExecuteEngine.TemplatingRuntime.ExecuteRequest: the engine's `execute` and the parked results' settlements are values, so a helper called during a run cannot re-enter the runtime. In the source, a helper such as `component` calls `templatingEngines.evaluate` (helpers.js:31-39) while the outer run is inside `execute` or the drain (executeEngine.js:98-105); that nested `executeEngine` registers its key in the same dedup entry (:130), resets the shared cache when caching is off (:133-135) and compiles into it (:83). The exact cache and dedup-map post-states these members state therefore hold for runs whose helpers evaluate nothing. For example, a template that calls a component with caching disabled ends the request with only the component's cache key, not the template's. Each nested evaluation on its own is modelled by `Evaluate` and `ComponentHelper.Component`.
- The requested engine name is `Option<string>`: absent stands for `undefined`. A `null` name, whose message would read `Engine 'null' not found…`, is not distinguished.
- `helpers` may be absent, which concatenates as `undefined`. A `null` value, which would concatenate as `null`, is not distinguished.
- The component cache is a map from strings. Keys inherited from `Object.prototype` (`constructor`, `toString`, …) would be cache hits in the source. They are not modelled.
- The current path lives on the request (`Reports.Request.currentPath`), one per request. In the source, the execution function writes it to the `jsreport-proxy` of the sandbox whose `require` it was handed (executeEngine.js:72-74), and the component helper reads the proxy of its own sandbox (helpers.js:10); that proxy module is not part of this model. So in the model a component evaluation sets the path its caller's later lookups read. A later evaluation of the same key, which is handed the first evaluation's `require` (executeEngine.js:121-124), sets the path on the request rather than on that first sandbox.
- The `this` binding of helper calls and the helper arguments are left out. For the component helper, the Handlebars and JsRender detections are boolean inputs.
- Logging and log forwarding, `stream-to-array` and `Buffer` are left out. The PDF content is the converter's collected output, as a string.
- Numbers are integers. String positions count code points, not UTF-16 units.

## Findings

| source | as written | input that shows it | evidently intended | confidence | as-written member | corrected member |
|---|---|---|---|---|---|---|
| packages/jsreport-core/lib/worker/render/executeEngine.js:23-29 | `evaluate` checks `!engine`, the requested name, instead of `!engineImpl`, the engine found | `engine: 'doesNotExist'` with no such engine: the guard passes, and a first evaluation throws a TypeError reading `createContext` instead of the 400 error (a later evaluation of the same key waits forever on the awaiter at :122, or reads `name` when an evaluation that had an engine resolved that key) | a name with no registered engine throws `Engine '<name>' not found…` with status 400 | high, not executed | ExecuteEngine.TemplatingRuntime.Evaluate | ExecuteEngine.TemplatingRuntime.EvaluateChecked |

The component helper is modelled as written: it goes through `Evaluate`, so its contract shows how the unknown engine reaches the component's caller. `EvaluateChecked` is the corrected evaluation, with the intended error proved.

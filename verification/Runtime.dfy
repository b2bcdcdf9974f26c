/** The world a pipeline runs in: errors, the execution environment, the request context and the
    name-resolution rules. Middleware, jq and the clock are parameters. */
module Runtime {
  import opened Base
  import opened JsonValues
  import opened Tags
  import opened Ast
  import opened Responses

  // ----- errors -----

  datatype WebPipeError =
    | Located(location: string, source: WebPipeError)
    | MiddlewareFailed(message: string)
    | PipelineNotFound(name: string)
    | ConfigError(message: string)
    | OtherError(text: string)

  function Show(e: WebPipeError): string {
    match e
    case Located(l, s) => "At " + l + ": " + Show(s)
    case MiddlewareFailed(m) => "Middleware execution failed: " + m
    case PipelineNotFound(n) => "Pipeline not found: " + n
    case ConfigError(m) => "Configuration error: " + m
    case OtherError(t) => t
  }

  /** Errors are located once, by the innermost step that has a position. */
  function WithLocation(e: WebPipeError, loc: Location): WebPipeError {
    match ErrorLabel(loc)
    case None => e
    case Some(l) => if e.Located? then e else Located(l, e)
  }

  datatype Failure = Failure(message: string, location: Option<string>)

  /** Only middleware failures, located or not, turn into error states. */
  function MiddlewareFailure(e: WebPipeError): Option<Failure> {
    match e
    case MiddlewareFailed(m) => Some(Failure(m, None))
    case Located(l, MiddlewareFailed(m)) => Some(Failure(m, Some(l)))
    case _ => None
  }

  // ----- environment and request context -----

  datatype Behavior = Merge | Transform | Render | ReadOnly

  datatype CachePolicy = CachePolicy(enabled: bool, ttl: nat, keyTemplate: Option<string>)

  /** Request state that middleware may read and change. `request` is private to the request,
      `outside` stands for everything beyond the process. */
  datatype Shared = Shared(flags: map<string, bool>, conditions: map<string, bool>,
                           callLog: map<string, seq<Json>>, cachePolicy: Option<CachePolicy>,
                           request: Json, outside: Json)

  datatype Invocation = Invocation(name: string, args: seq<string>, config: string, target: Option<string>)

  datatype MiddlewareResult =
    | MiddlewareOk(state: Json, contentType: Option<string>, shared: Shared)
    | MiddlewareErr(error: WebPipeError, shared: Shared)

  datatype Variable = Variable(name: string, value: string)
  datatype VariableKey = VariableKey(moduleId: Option<nat>, kind: string, name: string)
  datatype PipelineKey = PipelineKey(moduleId: Option<nat>, name: string)
  datatype ModuleMetadata = ModuleMetadata(path: string, importMap: map<string, nat>)

  datatype Env = Env(
    invoke: (Invocation, Json, Shared) -> MiddlewareResult,
    jq: (string, Json) -> Base.Result<Json, string>,
    guard: (string, Json) -> Option<bool>,
    decodeNames: string -> Option<seq<string>>,
    behaviors: map<string, Behavior>,
    named: map<PipelineKey, Pipeline>,
    variables: map<VariableKey, Variable>,
    modules: map<nat, ModuleMetadata>,
    environment: Option<string>,
    cacheSettings: string -> CachePolicy,
    cacheKey: (Option<string>, string, Option<string>, Json) -> string,
    limits: Limits,
    clock: nat -> nat)

  datatype Task = TaskValue(value: Json) | TaskError(message: string)

  /** Request context, finished-task registry, cache contents, and the cache operations so far; the
      clock is read once per cache operation. */
  datatype World = World(shared: Shared, tasks: map<string, Task>, cache: Cache, history: seq<Op>)

  function Context(env: Env, shared: Shared): TagContext {
    TagContext(env.environment, shared.flags, shared.conditions, env.guard)
  }

  predicate ShouldExecute(condition: Option<TagExpr>, env: Env, shared: Shared, state: Json) {
    condition.Some? ==> CheckTagExpr(condition.value, Context(env, shared), state)
  }

  function ConditionArgument(condition: Option<TagExpr>, name: string): Option<string> {
    if condition.Some? then TagArgument(condition.value, name) else None
  }

  // ----- scoped references -----

  predicate IsIdentifierPart(s: string) {
    && s != [] && (IsAsciiAlphanumeric(s[0]) || s[0] == '_')
    && forall i :: 1 <= i < |s| ==> IsAsciiAlphanumeric(s[i]) || s[i] == '_' || s[i] == '-'
  }

  /** Position of the first "::". */
  function FindScope(s: string): Option<nat> {
    if |s| < 2 then None
    else if s[0] == ':' && s[1] == ':' then Some(0)
    else match FindScope(s[1..])
      case None => None
      case Some(i) => Some(i + 1)
  }

  lemma {:induction false} FindScopeBound(s: string)
    ensures FindScope(s).Some? ==> FindScope(s).value + 2 <= |s|
  {
    if |s| >= 2 { FindScopeBound(s[1..]); }
  }

  datatype ScopedRef = ScopedRef(alias: Option<string>, name: string)

  /** "alias::name" when both halves are identifiers, otherwise the text as it stands. */
  function ParseScopedRef(config: string): ScopedRef {
    var trimmed := Trim(config);
    FindScopeBound(trimmed);
    match FindScope(trimmed)
    case None => ScopedRef(None, config)
    case Some(i) =>
      var namespace := trimmed[..i];
      var name := trimmed[i + 2..];
      if FindScope(name).None? && IsIdentifierPart(namespace) && IsIdentifierPart(name)
      then ScopedRef(Some(namespace), name)
      else ScopedRef(None, config)
  }

  /** The module an alias stands for in the module of the step. */
  function AliasTarget(env: Env, loc: Location, alias: string): Option<nat> {
    if loc.moduleId.Some? && loc.moduleId.value in env.modules
       && alias in env.modules[loc.moduleId.value].importMap
    then Some(env.modules[loc.moduleId.value].importMap[alias])
    else None
  }

  function ResolveNamed(env: Env, loc: Location, text: string): Option<Pipeline> {
    var ref := ParseScopedRef(text);
    var moduleId := if ref.alias.Some? then AliasTarget(env, loc, ref.alias.value) else loc.moduleId;
    var exact := ValueAt(env.named, PipelineKey(moduleId, ref.name));
    if exact.Some? then exact
    else if ref.alias.None? && moduleId.Some? then ValueAt(env.named, PipelineKey(None, ref.name))
    else None
  }

  /** The variable a step's config names, if any. */
  function ResolveVariable(env: Env, loc: Location, middleware: string, config: string): Option<Variable> {
    var ref := ParseScopedRef(config);
    if ref.alias.Some? then
      match AliasTarget(env, loc, ref.alias.value)
      case None => None
      case Some(target) => ValueAt(env.variables, VariableKey(Some(target), middleware, ref.name))
    else
      var exact := ValueAt(env.variables, VariableKey(loc.moduleId, middleware, ref.name));
      if exact.None? && loc.moduleId.Some? then ValueAt(env.variables, VariableKey(None, middleware, ref.name))
         else exact
  }

  datatype Resolved = Resolved(config: string, input: Json, autoNamed: bool)

  function ResolveConfig(env: Env, loc: Location, middleware: string, config: string, input: Json): Resolved {
    match ResolveVariable(env, loc, middleware, config)
    case None => Resolved(config, input, false)
    case Some(v) =>
      if input.Object? && "resultName" !in input.fields
      then Resolved(v.value, Insert(input, "resultName", String(v.name)), true)
      else Resolved(v.value, input, false)
  }

  datatype Target = Target(name: Option<string>, cleanup: bool)

  /** `@result(name)` wins over a `resultName` in the state; only an automatic name is cleaned up. */
  function TargetName(condition: Option<TagExpr>, state: Json, autoNamed: bool): Target {
    var tagged := ConditionArgument(condition, "result");
    if tagged.Some? then Target(tagged, false)
    else match GetString(state, "resultName")
      case Some(n) => Target(Some(n), autoNamed)
      case None => Target(None, false)
  }

  // ----- step names -----

  predicate IsShorthand(env: Env, s: Step)
    requires s.Regular?
  {
    !s.configPresent && s.name != "pipeline" && s.name != "loader" && s.name !in env.behaviors
  }

  function EffectiveName(env: Env, s: Step): string
    requires s.Regular?
  {
    if s.name == "pipeline" || IsShorthand(env, s) then "pipeline" else s.name
  }

  function RawConfig(env: Env, s: Step): string
    requires s.Regular?
  {
    if s.name != "pipeline" && IsShorthand(env, s) then s.name else s.config
  }

  /** The identity that keeps default cache keys of distinct steps apart. */
  function StepId(s: Step, idx: nat): string {
    (if s.loc.file.Some? then s.loc.file.value else "?")
      + ":" + Decimal(s.loc.line) + ":" + Decimal(s.loc.column) + "#" + Decimal(idx)
  }

  /** No later step of the list would run on this state. */
  predicate IsLast(rest: seq<Step>, env: Env, shared: Shared, state: Json) {
    forall i :: 0 <= i < |rest| ==> rest[i].Regular? && !ShouldExecute(rest[i].condition, env, shared, state)
  }

  // ----- state updates -----

  const RUNTIME_KEYS: seq<string> :=
    ["async", "data", "originalRequest", "query", "params", "body", "headers", "cookies",
     "method", "path", "ip", "content_type"]

  /** A transform keeps the runtime keys it did not set itself. */
  function RestoreKeys(before: Json, after: Json): Json {
    if !after.Object? || !before.Object? then after
    else Object((map k | k in RUNTIME_KEYS && k in before.fields :: before.fields[k]) + after.fields)
  }

  function UpdateState(state: Json, value: Json, behavior: Behavior, isLast: bool): Json {
    match behavior
    case Merge => MergeState(state, value)
    case Transform => if isLast then value else RestoreKeys(state, value)
    case Render => value
    case ReadOnly => state
  }

  function WrapData(state: Json, target: string, value: Json): Json {
    if state.Object? then
      var data := match Get(state, "data") case Some(Object(d)) => d case _ => map[];
      Insert(state, "data", Object(data[target := value]))
    else
      Object(map["data" := Object(map[target := value])])
  }

  function BehaviorOf(env: Env, name: string): Behavior {
    if name in env.behaviors then env.behaviors[name] else Merge
  }

  const JSON_TYPE: string := "application/json"

  predicate KeepsContentType(name: string) {
    name == "pipeline" || name == "handlebars" || name == "gg" || name == "algraf" || name == "ag"
  }

  // ----- cache operations on the world -----

  function Perform(env: Env, w: World, op: Op): World {
    w.(cache := Apply(env.limits, w.cache, op), history := w.history + [op])
  }

  function Now(env: Env, w: World): nat { env.clock(|w.history|) }

  datatype PendingSave = PendingSave(key: string, ttl: nat, refreshing: bool)

  predicate Uncacheable(state: Json, status: Option<nat>) {
    ErrorType(state).Some? || (status.Some? && status.value >= 500)
  }

  /** The operation that settles one save with a run's output; an uncacheable output only frees a held slot. */
  function SettleOp(env: Env, save: PendingSave, r: Response, w: World): World {
    if Uncacheable(r.body, r.status) then
      if save.refreshing then Perform(env, w, Clear(save.key, Now(env, w))) else w
    else Perform(env, w, Put(save.key, r, Some(save.ttl), Now(env, w)))
  }

  function Settle(env: Env, saves: seq<PendingSave>, r: Response, w: World): World {
    if saves == [] then w else Settle(env, saves[1..], r, SettleOp(env, saves[0], r, w))
  }
}

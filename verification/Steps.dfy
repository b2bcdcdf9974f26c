/** One step of a pipeline. Everything a step does up to its next nested run is a `Plan`; what it does with
    the nested run's result is `Finish`. The interpreter and the task scheduler both drive these. */
module Steps {
  import opened Base
  import opened JsonValues
  import opened Tags
  import opened Ast
  import opened Responses
  import opened Runtime

  /** A cache lookup made by a run's own step. */
  datatype LookupEvent = LookupEvent(key: string, ttl: nat, outcome: Outcome)

  /** The state a pipeline run carries from step to step. */
  datatype Frame = Frame(state: Json, contentType: string, status: Option<nat>,
                         saves: seq<PendingSave>, handled: Option<string>, lookups: seq<LookupEvent>)

  datatype StepEnd =
    | Continue(frame: Frame, w: World)
    | Return(out: Response, frame: Frame, w: World)
    | Raised(error: WebPipeError, w: World)

  datatype Run =
    | Stuck
    | Failed(error: WebPipeError, w: World)
    | Value(out: Response, w: World)

  /** What a regular step still needs once its core logic has a result. */
  datatype Pending = Pending(step: Step, name: string, target: Target, isLast: bool, frame: Frame)

  datatype Kont =
    | KNamed(pending: Pending)
    | KIf(thenBranch: Pipeline, elseBranch: Option<Pipeline>, frame: Frame)
    | KBranch(frame: Frame)
    | KForeach(parts: seq<string>, body: Pipeline, left: seq<Json>, done: seq<Json>, frame: Frame)
    | KResult(status: nat, cookies: Option<Json>, frame: Frame)

  datatype Job =
    | JobFailed(error: WebPipeError)
    | JobPipeline(pipeline: Pipeline, input: Json, loc: Location)
    | JobCall(call: Invocation, input: Json, loc: Location)

  datatype Plan =
    | Done(end: StepEnd)
    | Call(pipeline: Pipeline, input: Json, handled: Option<string>, kont: Kont, w: World)
    | Fork(name: string, job: Job, frame: Frame, w: World)
    | Gather(names: seq<string>, input: Json, pending: Pending, w: World)

  // ----- regular steps -----

  function ApplyResult(env: Env, p: Pending, value: Json): Json {
    if p.target.name.Some? && p.name in {"pg", "fetch", "graphql"} && ErrorType(value).None?
    then WrapData(p.frame.state, p.target.name.value, value)
    else UpdateState(p.frame.state, value, BehaviorOf(env, p.name), p.isLast)
  }

  function NextContentType(p: Pending, contentType: string): string {
    if (contentType != JSON_TYPE || p.isLast) && (p.isLast || KeepsContentType(p.name))
    then contentType else p.frame.contentType
  }

  /** Fold the core result back into the run: retype errors, update state and metadata, stop on a cache hit,
      drop an automatic result name. */
  function FinishRegular(env: Env, p: Pending, r: Response, hit: Option<Response>, w: World): StepEnd
    requires p.step.Regular?
  {
    var value := OverrideErrorType(r.body, ConditionArgument(p.step.condition, "error"));
    var state := ApplyResult(env, p, value);
    var f := p.frame.(state := state, contentType := NextContentType(p, r.contentType),
                      status := OrElse(r.status, p.frame.status));
    if hit.Some? then
      Return(Response(hit.value.body, hit.value.contentType, OrElse(hit.value.status, f.status)), f, w)
    else
      Continue(f.(state := if p.target.cleanup then Remove(state, "resultName") else state), w)
  }

  /** A failing regular step leaves an error envelope if the failure came from middleware. */
  function Recover(s: Step, f: Frame, e: WebPipeError, w: World): StepEnd
    requires s.Regular?
  {
    var located := WithLocation(e, s.loc);
    match MiddlewareFailure(located)
    case None => Raised(located, w)
    case Some(failure) =>
      var value := MiddlewareErrorValue(s.name, failure.message, failure.location);
      Continue(f.(state := OverrideErrorType(value, ConditionArgument(s.condition, "error"))), w)
  }

  /** Arguments of a pipeline call: the first is a jq expression merged into the input. */
  function CallInput(env: Env, args: seq<string>, input: Json): Base.Result<Json, WebPipeError> {
    if args == [] then Ok(input)
    else match env.jq(args[0], input)
      case Err(e) => Err(MiddlewareFailed("pipeline argument evaluation failed: " + e))
      case Ok(v) => Ok(if input.Object? && v.Object? then Object(input.fields + v.fields) else v)
  }

  function PlanNamed(env: Env, p: Pending, config: string, input: Json, w: World): (plan: Plan)
    requires p.step.Regular?
    ensures Sound(plan)
  {
    match ResolveNamed(env, p.step.loc, Trim(config))
    case None => Done(Recover(p.step, p.frame, PipelineNotFound(Trim(config)), w))
    case Some(pipeline) =>
      match CallInput(env, p.step.args, input)
      case Err(e) => Done(Recover(p.step, p.frame, e, w))
      case Ok(arg) => Call(pipeline, arg, None, KNamed(p), w)
  }

  /** The lookup half of the cache middleware. */
  datatype CacheEffect = CacheEffect(hit: Option<Response>, saves: seq<PendingSave>, lookups: seq<LookupEvent>,
                                     w: World)

  function CacheLookup(env: Env, stepId: Option<string>, config: string, input: Json, w: World): CacheEffect {
    var policy := env.cacheSettings(config);
    if !policy.enabled then CacheEffect(None, [], [], w)
    else
      var key := env.cacheKey(stepId, config, policy.keyTemplate, input);
      var outcome := LookupOutcome(env.limits, w.cache, key, Now(env, w));
      var w1 := Perform(env, w, Lookup(key, Now(env, w)));
      var w2 := w1.(shared := w1.shared.(cachePolicy := Some(policy)));
      var event := [LookupEvent(key, policy.ttl, outcome)];
      match outcome
      case Fresh(r) => CacheEffect(Some(r), [], event, w2)
      case Stale(r) => CacheEffect(Some(r), [], event, w2)
      case Refresh(_) => CacheEffect(None, [PendingSave(key, policy.ttl, true)], event, w2)
      case Miss => CacheEffect(None, [PendingSave(key, policy.ttl, false)], event, w2)
  }

  predicate IsCache(env: Env, name: string) { name == "cache" && "cache" in env.behaviors }

  function PlanStandard(env: Env, p: Pending, idx: nat, config: string, input: Json, w: World): StepEnd
    requires p.step.Regular?
  {
    if IsCache(env, p.name) then
      var e := CacheLookup(env, Some(StepId(p.step, idx)), config, input, w);
      var f := p.frame.(saves := p.frame.saves + e.saves, lookups := p.frame.lookups + e.lookups);
      FinishRegular(env, p.(frame := f), Response(input, JSON_TYPE, None), e.hit, e.w)
    else
      match env.invoke(Invocation(p.name, p.step.args, config, p.target.name), input, w.shared)
      case MiddlewareErr(e, shared) => Recover(p.step, p.frame, e, w.(shared := shared))
      case MiddlewareOk(state, ct, shared) =>
        FinishRegular(env, p, Response(state, if ct.Some? then ct.value else JSON_TYPE, None), None,
                      w.(shared := shared))
  }

  // ----- joins -----

  function SplitCommas(s: string, current: string): seq<string> {
    if s == [] then [current]
    else if s[0] == ',' then [current] + SplitCommas(s[1..], [])
    else SplitCommas(s[1..], current + [s[0]])
  }

  function TrimAll(parts: seq<string>): seq<string> {
    if parts == [] then [] else [Trim(parts[0])] + TrimAll(parts[1..])
  }

  function JoinNames(env: Env, s: Step, config: string): Base.Result<seq<string>, WebPipeError>
    requires s.Regular?
  {
    if s.joinTargets.Some? then Ok(s.joinTargets.value)
    else
      var trimmed := Trim(config);
      if trimmed != [] && trimmed[0] == '[' then
        match env.decodeNames(trimmed)
        case Some(names) => Ok(names)
        case None => Err(ConfigError("Invalid JSON array for join config"))
      else
        var names := NonEmpty(TrimAll(SplitCommas(trimmed, [])));
        if names == [] then Err(ConfigError("join config must specify at least one task name")) else Ok(names)
  }

  function PlanJoin(env: Env, p: Pending, config: string, input: Json, w: World): (plan: Plan)
    requires p.step.Regular?
    ensures Sound(plan)
  {
    match JoinNames(env, p.step, config)
    case Err(e) => Done(Recover(p.step, p.frame, e, w))
    case Ok(names) => Gather(names, input, p, w)
  }

  function TaskJson(t: Task): Json {
    match t
    case TaskValue(v) => v
    case TaskError(m) => Object(map["error" := String(m)])
  }

  /** Results of the named tasks; each name is taken at most once, unknown names are skipped. */
  function Collect(names: seq<string>, tasks: map<string, Task>): map<string, Json> {
    if names == [] then map[]
    else if names[0] in tasks then Collect(names[1..], tasks - {names[0]})[names[0] := TaskJson(tasks[names[0]])]
    else Collect(names[1..], tasks)
  }

  /** Only registered tasks contribute results. */
  lemma {:induction false} CollectKeys(names: seq<string>, tasks: map<string, Task>)
    ensures Collect(names, tasks).Keys <= tasks.Keys
    decreases |names|
  {
    if names != [] {
      CollectKeys(names[1..], tasks - {names[0]});
      CollectKeys(names[1..], tasks);
    }
  }

  function Remaining(names: seq<string>, tasks: map<string, Task>): map<string, Task> {
    if names == [] then tasks else Remaining(names[1..], tasks - {names[0]})
  }

  function FinishJoin(env: Env, p: Pending, input: Json, results: map<string, Json>, w: World): StepEnd
    requires p.step.Regular?
  {
    FinishRegular(env, p, Response(Insert(input, "async", Object(results)), JSON_TYPE, None), None, w)
  }

  // ----- async steps -----

  function PlanJob(env: Env, s: Step, name: string, raw: string, state: Json): Job
    requires s.Regular?
  {
    var r := ResolveConfig(env, s.loc, name, raw, state);
    if name == "pipeline" then
      match ResolveNamed(env, s.loc, Trim(r.config))
      case None => JobFailed(WithLocation(PipelineNotFound(Trim(r.config)), s.loc))
      case Some(pipeline) =>
        match CallInput(env, s.args, r.input)
        case Err(e) => JobFailed(WithLocation(e, s.loc))
        case Ok(arg) => JobPipeline(pipeline, arg, s.loc)
    else
      JobCall(Invocation(name, s.args, r.config, None), r.input, s.loc)
  }

  /** Tasks start from a fresh request context; they share the cache and the outside world. */
  function TaskWorld(w: World): World {
    World(Shared(map[], map[], map[], None, Null, w.shared.outside), map[], w.cache, w.history)
  }

  function AfterTask(w: World, name: string, t: Task, tw: World): World {
    World(w.shared.(outside := tw.shared.outside), w.tasks[name := t], tw.cache, tw.history)
  }

  function JobOutcome(r: Run, loc: Location): Task
    requires !r.Stuck?
  {
    match r
    case Failed(e, _) => TaskError(Show(WithLocation(e, loc)))
    case Value(out, _) => TaskValue(out.body)
  }

  /** A task that is a single middleware call; a cache lookup made there registers nothing. */
  function RunCall(env: Env, call: Invocation, input: Json, w: World): Run {
    if IsCache(env, call.name) then
      Value(Response(input, JSON_TYPE, None), CacheLookup(env, None, call.config, input, w).w)
    else
      match env.invoke(call, input, w.shared)
      case MiddlewareErr(e, shared) => Failed(e, w.(shared := shared))
      case MiddlewareOk(state, _, shared) => Value(Response(state, JSON_TYPE, None), w.(shared := shared))
  }

  // ----- planning -----

  /** Nested runs a step may still make after this one. */
  function KontRank(k: Kont): nat {
    match k
    case KIf(_, _, _) => 2
    case KForeach(_, _, left, _, _) => 1 + |left|
    case _ => 1
  }

  function Rank(p: Plan): nat { if p.Call? then KontRank(p.kont) else 0 }

  predicate WellFormed(k: Kont) { k.KNamed? ==> k.pending.step.Regular? }

  /** Plans only ever continue regular steps as regular steps. */
  predicate Sound(p: Plan) {
    match p
    case Call(_, _, _, k, _) => WellFormed(k)
    case Gather(_, _, pending, _) => pending.step.Regular?
    case _ => true
  }

  function LogCall(w: World, config: string, input: Json): World {
    var key := "pipeline." + Trim(config);
    var earlier := if key in w.shared.callLog then w.shared.callLog[key] else [];
    w.(shared := w.shared.(callLog := w.shared.callLog[key := earlier + [input]]))
  }

  function PlanRegular(env: Env, s: Step, idx: nat, rest: seq<Step>, f: Frame, w: World): (plan: Plan)
    requires s.Regular?
    ensures Sound(plan)
  {
    if !ShouldExecute(s.condition, env, w.shared, f.state) then Done(Continue(f, w))
    else
      var name := EffectiveName(env, s);
      var task := ConditionArgument(s.condition, "async");
      if task.Some? then Fork(task.value, PlanJob(env, s, name, RawConfig(env, s), f.state), f, w)
      else
        var r := ResolveConfig(env, s.loc, name, RawConfig(env, s), f.state);
        var w1 := if name == "pipeline" then LogCall(w, r.config, r.input) else w;
        var f1 := if r.autoNamed then f.(state := r.input) else f;
        var p := Pending(s, name, TargetName(s.condition, f1.state, r.autoNamed),
                         IsLast(rest, env, w.shared, f.state), f1);
        if name == "join" then PlanJoin(env, p, r.config, r.input, w1)
        else if name == "pipeline" then PlanNamed(env, p, r.config, r.input, w1)
        else Done(PlanStandard(env, p, idx, r.config, r.input, w1))
  }

  function SelectCase(cases: seq<DispatchBranch>, default: Option<Pipeline>, env: Env, shared: Shared,
                      state: Json): Option<Pipeline> {
    if cases == [] then default
    else if CheckTagExpr(cases[0].condition, Context(env, shared), state) then Some(cases[0].pipeline)
    else SelectCase(cases[1..], default, env, shared, state)
  }

  function NextItem(parts: seq<string>, body: Pipeline, left: seq<Json>, done: seq<Json>, f: Frame, w: World): Plan {
    if left == [] then Done(Continue(f.(state := SetPath(f.state, parts, Array(done))), w))
    else Call(body, left[0], None, KForeach(parts, body, left[1..], done, f), w)
  }

  /** The array is taken out of the state while its items run. */
  function PlanForeach(selector: string, body: Pipeline, f: Frame, w: World): (plan: Plan)
    ensures Sound(plan)
  {
    var parts := ParsePath(selector);
    match GetPath(f.state, parts)
    case Some(Array(items)) => NextItem(parts, body, items, [], f.(state := SetPath(f.state, parts, Null)), w)
    case _ => Done(Raised(MiddlewareFailed("foreach: path '" + selector + "' is not an array or does not exist"), w))
  }

  function PlanResult(branches: seq<ResultBranch>, f: Frame, w: World): (plan: Plan)
    ensures Sound(plan)
  {
    match SelectBranch(branches, ErrorType(f.state))
    case None => Done(Return(Response(f.state, f.contentType, f.status), f, w))
    case Some(b) => Call(b.pipeline, f.state, ErrorType(f.state), KResult(b.status, Get(f.state, "setCookies"), f), w)
  }

  function PlanStep(env: Env, s: Step, idx: nat, rest: seq<Step>, f: Frame, w: World): (plan: Plan)
    ensures Sound(plan)
  {
    match s
    case Regular(_, _, _, _, _, _, _) => PlanRegular(env, s, idx, rest, f, w)
    case Result(branches, _) => PlanResult(branches, f, w)
    case If(test, thenBranch, elseBranch, _) => Call(test, f.state, None, KIf(thenBranch, elseBranch, f), w)
    case Dispatch(cases, default, _) =>
      (match SelectCase(cases, default, env, w.shared, f.state)
       case None => Done(Continue(f, w))
       case Some(p) => Call(p, f.state, None, KBranch(f), w))
    case Foreach(selector, body, _) => PlanForeach(selector, body, f, w)
  }

  // ----- continuing after a nested run -----

  predicate Truthy(v: Json) {
    match v
    case Bool(b) => b
    case Null => false
    case _ => true
  }

  function KeepCookies(result: Json, cookies: Option<Json>): Json {
    if cookies.Some? && result.Object? && "setCookies" !in result.fields
    then Insert(result, "setCookies", cookies.value) else result
  }

  function Finish(env: Env, k: Kont, r: Run): (plan: Plan)
    requires !r.Stuck? && WellFormed(k)
    ensures Sound(plan) && Rank(plan) < KontRank(k)
  {
    match k
    case KNamed(p) =>
      (match r
       case Failed(e, w) => Done(Recover(p.step, p.frame, e, w))
       case Value(out, w) => Done(FinishRegular(env, p, out, None, w)))
    case KIf(thenBranch, elseBranch, f) =>
      (match r
       case Failed(e, w) => Done(Raised(e, w))
       case Value(out, w) =>
         if Truthy(out.body) then Call(thenBranch, f.state, None, KBranch(f), w)
         else if elseBranch.Some? then Call(elseBranch.value, f.state, None, KBranch(f), w)
         else Done(Continue(f, w)))
    case KBranch(f) =>
      (match r
       case Failed(e, w) => Done(Raised(e, w))
       case Value(out, w) =>
         Done(Continue(f.(state := out.body, status := OrElse(out.status, f.status),
                          contentType := if out.contentType != JSON_TYPE then out.contentType else f.contentType), w)))
    case KForeach(parts, body, left, done, f) =>
      (match r
       case Failed(e, w) => Done(Raised(e, w))
       case Value(out, w) => NextItem(parts, body, left, done + [out.body], f, w))
    case KResult(status, cookies, f) =>
      (match r
       case Failed(e, w) => Done(Raised(e, w))
       case Value(out, w) =>
         var state := KeepCookies(out.body, cookies);
         Done(Return(Response(state, if out.contentType != JSON_TYPE then out.contentType else f.contentType,
                              Some(status)),
                     f.(state := state), w)))
  }
}

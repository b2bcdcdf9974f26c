/** The executor as it runs: loops over steps, items, branches, task names and saves that update the contexts in
    place. Each method is proved to do what the interpreter says. */
module Execution {
  import opened Base
  import opened JsonValues
  import opened Tags
  import opened Ast
  import opened Responses
  import opened CacheStores
  import opened Runtime
  import opened Steps
  import opened Interpreter
  import opened Contexts

  datatype StepOutcome = Proceed | Finished(out: Response) | Abort(error: WebPipeError) | Exhausted

  datatype PipelineResult = Completed(out: Response) | Aborted(error: WebPipeError) | Unfinished

  ghost function WorldOf(ctx: RequestContext, store: CacheStore): World
    reads ctx, store
  {
    World(ctx.View(), ctx.tasks, store.Contents(), store.history)
  }

  ghost function FrameOf(pc: PipelineContext, out: ResponseMetadata, handled: Option<string>): Frame
    reads pc, out
  {
    Frame(pc.state, out.contentType, out.status, pc.pendingSaves, handled, pc.lookups)
  }

  ghost predicate Ready(env: Env, store: CacheStore)
    reads store
  {
    store.Valid() && store.limits == env.limits
  }

  /** The outcome and the objects together say what the interpreter's step result says. */
  ghost predicate Ends(o: StepOutcome, end: StepEnd, ctx: RequestContext, store: CacheStore,
                       pc: PipelineContext, out: ResponseMetadata, handled: Option<string>)
    reads ctx, store, pc, out
  {
    match o
    case Proceed => end == Continue(FrameOf(pc, out, handled), WorldOf(ctx, store))
    case Finished(r) => end.Return? && end.out == r && end.frame.saves == pc.pendingSaves
        && end.w == WorldOf(ctx, store)
    case Abort(e) => end == Raised(e, WorldOf(ctx, store))
    case Exhausted => false
  }

  ghost predicate Agrees(o: StepOutcome, r: StepResult, ctx: RequestContext, store: CacheStore,
                         pc: PipelineContext, out: ResponseMetadata, handled: Option<string>)
    reads ctx, store, pc, out
  {
    if o.Exhausted? then r.OutOfFuel? else r.Ended? && Ends(o, r.end, ctx, store, pc, out, handled)
  }

  ghost predicate RunAgrees(r: PipelineResult, run: Run, ctx: RequestContext, store: CacheStore)
    reads ctx, store
  {
    match r
    case Unfinished => run.Stuck?
    case Aborted(e) => run == Failed(e, WorldOf(ctx, store))
    case Completed(out) => run == Value(out, WorldOf(ctx, store))
  }

  /** One nested run of a step. */
  lemma DriveCall(env: Env, fuel: nat, p: Pipeline, input: Json, handled: Option<string>, k: Kont, w: World)
    requires WellFormed(k)
    ensures fuel == 0 ==> Drive(env, fuel, Call(p, input, handled, k, w)).OutOfFuel?
    ensures fuel > 0 ==>
              var r := RunPipeline(env, fuel - 1, p, input, handled, w);
              Drive(env, fuel, Call(p, input, handled, k, w))
                  == if r.Stuck? then OutOfFuel else Drive(env, fuel, Finish(env, k, r))
  {
    hide RunPipeline, Finish;
  }

  lemma DriveDone(env: Env, fuel: nat, end: StepEnd)
    ensures Drive(env, fuel, Done(end)) == Ended(end)
  {
    hide RunPipeline, Finish;
  }

  // ----- saves -----

  method RunPendingSaves(env: Env, saves: seq<PendingSave>, out: Response, ctx: RequestContext, store: CacheStore)
    requires Ready(env, store)
    modifies store
    ensures Ready(env, store)
    ensures WorldOf(ctx, store) == Settle(env, saves, out, old(WorldOf(ctx, store)))
  {
    var uncacheable := ErrorType(out.body).Some? || (out.status.Some? && out.status.value >= 500);
    for i := 0 to |saves|
      invariant Ready(env, store)
      invariant Settle(env, saves[i..], out, WorldOf(ctx, store)) == Settle(env, saves, out, old(WorldOf(ctx, store)))
    {
      assert saves[i..][1..] == saves[i + 1..];
      if uncacheable {
        if saves[i].refreshing {
          store.ClearRefresh(saves[i].key, env.clock(store.operations));
        }
      } else {
        store.PutResponse(saves[i].key, out, Some(saves[i].ttl), env.clock(store.operations));
      }
    }
  }

  // ----- the two ends of a regular step -----

  /** Data-fetching middleware with a target wraps its value under `data`; the rest follow their behavior. */
  method StoreValue(env: Env, name: string, target: Target, isLast: bool, value: Json, pc: PipelineContext,
                    ghost p: Pending)
    requires p.name == name && p.target == target && p.isLast == isLast && p.frame.state == pc.state
    modifies pc`state
    ensures pc.state == ApplyResult(env, p, value)
  {
    hide WrapData, UpdateState;
    if target.name.Some? && name in {"pg", "fetch", "graphql"} && ErrorType(value).None? {
      pc.state := WrapData(pc.state, target.name.value, value);
    } else {
      pc.Update(value, BehaviorOf(env, name), isLast);
    }
  }

  method RecordMetadata(name: string, isLast: bool, contentType: string, status: Option<nat>, out: ResponseMetadata,
                        ghost p: Pending)
    requires p.name == name && p.isLast == isLast && p.frame.contentType == out.contentType
    modifies out
    ensures out.contentType == NextContentType(p, contentType)
    ensures out.status == OrElse(status, old(out.status))
  {
    if contentType != JSON_TYPE || isLast {
      if name == "pipeline" || isLast || name == "handlebars" || name == "gg" || name == "algraf" || name == "ag" {
        out.contentType := contentType;
      }
    }
    if status.Some? {
      out.status := status;
    }
  }

  /** Fold a result into the contexts, stop on a cache hit, drop an automatic name. */
  method ApplyStepResult(env: Env, s: Step, name: string, target: Target, isLast: bool, r: Response,
                         ctx: RequestContext, store: CacheStore, pc: PipelineContext, out: ResponseMetadata,
                         ghost handled: Option<string>)
    returns (o: StepOutcome)
    requires s.Regular?
    modifies pc, out
    ensures Ends(o, FinishRegular(env, Pending(s, name, target, isLast, old(FrameOf(pc, out, handled))), r,
                                  old(pc.cacheHit),
                                  WorldOf(ctx, store)), ctx, store, pc, out, handled)
    ensures pc.cacheHit == None
  {
    hide ApplyResult, NextContentType, OverrideErrorType;
    ghost var p := Pending(s, name, target, isLast, FrameOf(pc, out, handled));
    var value := OverrideErrorType(r.body, ConditionArgument(s.condition, "error"));
    StoreValue(env, name, target, isLast, value, pc, p);
    RecordMetadata(name, isLast, r.contentType, r.status, out, p);
    if pc.cacheHit.Some? {
      var hit := pc.cacheHit.value;
      pc.cacheHit := None;
      return Finished(Response(hit.body, hit.contentType, OrElse(hit.status, out.status)));
    }
    if target.cleanup {
      pc.state := Remove(pc.state, "resultName");
    }
    return Proceed;
  }

  method RecoverStep(s: Step, e: WebPipeError, ctx: RequestContext, store: CacheStore, pc: PipelineContext,
                     out: ResponseMetadata, ghost handled: Option<string>)
    returns (o: StepOutcome)
    requires s.Regular?
    modifies pc`state
    ensures Ends(o, Recover(s, old(FrameOf(pc, out, handled)), e, WorldOf(ctx, store)), ctx, store, pc, out, handled)
  {
    var located := WithLocation(e, s.loc);
    match MiddlewareFailure(located) {
      case None => return Abort(located);
      case Some(failure) =>
        var value := MiddlewareErrorValue(s.name, failure.message, failure.location);
        pc.state := OverrideErrorType(value, ConditionArgument(s.condition, "error"));
        return Proceed;
    }
  }

  // ----- core logic -----

  /** The cache middleware: look up, then signal a hit or register a save. */
  method ConsultCache(env: Env, stepId: Option<string>, config: string, input: Json, ctx: RequestContext,
                      store: CacheStore, pc: PipelineContext)
    requires Ready(env, store) && pc.cacheHit == None
    modifies ctx, store, pc
    ensures Ready(env, store) && pc.state == old(pc.state)
    ensures var e := CacheLookup(env, stepId, config, input, old(WorldOf(ctx, store)));
            && pc.cacheHit == e.hit && pc.pendingSaves == old(pc.pendingSaves) + e.saves
            && pc.lookups == old(pc.lookups) + e.lookups && WorldOf(ctx, store) == e.w
  {
    var policy := env.cacheSettings(config);
    if !policy.enabled {
      return;
    }
    ctx.cachePolicy := Some(policy);
    var key := env.cacheKey(stepId, config, policy.keyTemplate, input);
    var outcome := store.LookupEntry(key, env.clock(store.operations));
    match outcome {
      case Fresh(r) => pc.cacheHit := Some(r);
      case Stale(r) => pc.cacheHit := Some(r);
      case Refresh(_) => pc.pendingSaves := pc.pendingSaves + [PendingSave(key, policy.ttl, true)];
      case Miss => pc.pendingSaves := pc.pendingSaves + [PendingSave(key, policy.ttl, false)];
    }
    pc.lookups := pc.lookups + [LookupEvent(key, policy.ttl, outcome)];
  }

  method RunStandard(env: Env, s: Step, name: string, target: Target, isLast: bool, idx: nat, config: string,
                     input: Json,
                     ctx: RequestContext, store: CacheStore, pc: PipelineContext, out: ResponseMetadata,
                     ghost handled: Option<string>)
    returns (o: StepOutcome)
    requires s.Regular? && Ready(env, store) && pc.cacheHit == None
    modifies ctx, store, pc, out
    ensures Ready(env, store) && pc.cacheHit == None
    ensures Ends(o, PlanStandard(env, Pending(s, name, target, isLast, old(FrameOf(pc, out, handled))), idx, config,
                                 input,
                                 old(WorldOf(ctx, store))), ctx, store, pc, out, handled)
  {
    hide CacheLookup, FinishRegular, Recover;
    if IsCache(env, name) {
      ConsultCache(env, Some(StepId(s, idx)), config, input, ctx, store, pc);
      o := ApplyStepResult(env, s, name, target, isLast, Response(input, JSON_TYPE, None), ctx, store, pc, out,
                           handled);
    } else {
      var call := Invocation(name, s.args, config, target.name);
      match env.invoke(call, input, ctx.View()) {
        case MiddlewareErr(e, shared) =>
          ctx.Adopt(shared);
          o := RecoverStep(s, e, ctx, store, pc, out, handled);
        case MiddlewareOk(state, ct, shared) =>
          ctx.Adopt(shared);
          var r := Response(state, if ct.Some? then ct.value else JSON_TYPE, None);
          o := ApplyStepResult(env, s, name, target, isLast, r, ctx, store, pc, out, handled);
      }
    }
  }

  lemma CollectOne(names: seq<string>, tasks: map<string, Task>, results: map<string, Json>)
    requires names != [] && results.Keys !! tasks.Keys
    ensures var left := tasks - {names[0]};
            var got := if names[0] in tasks then results[names[0] := TaskJson(tasks[names[0]])] else results;
            && Remaining(names[1..], left) == Remaining(names, tasks)
            && Collect(names[1..], left) + got == Collect(names, tasks) + results
  {
    hide TaskJson;
    var left := tasks - {names[0]};
    CollectKeys(names[1..], left);
    if names[0] in tasks {
      var t := TaskJson(tasks[names[0]]);
      assert names[0] !in Collect(names[1..], left);
      assert Collect(names, tasks) == Collect(names[1..], left)[names[0] := t];
      hide Collect;
      assert Collect(names[1..], left)[names[0] := t] + results == Collect(names[1..], left) + results[names[0] := t];
    } else {
      assert left == tasks;
    }
  }

  /** Wait for the named tasks and collect their results. */
  method CollectTasks(names: seq<string>, ctx: RequestContext) returns (results: map<string, Json>)
    modifies ctx`tasks
    ensures results == Collect(names, old(ctx.tasks)) && ctx.tasks == Remaining(names, old(ctx.tasks))
  {
    results := map[];
    for i := 0 to |names|
      invariant Remaining(names[i..], ctx.tasks) == Remaining(names, old(ctx.tasks))
      invariant results.Keys !! ctx.tasks.Keys
      invariant Collect(names[i..], ctx.tasks) + results == Collect(names, old(ctx.tasks))
    {
      assert names[i..][1..] == names[i + 1..];
      CollectOne(names[i..], ctx.tasks, results);
      hide Collect, Remaining, TaskJson;
      var handle := ctx.Take(names[i]);
      if handle.Some? {
        results := results[names[i] := TaskJson(handle.value)];
      }
    }
  }

  method RunJoin(env: Env, s: Step, target: Target, isLast: bool, config: string, input: Json, ghost fuel: nat,
                 ctx: RequestContext, store: CacheStore, pc: PipelineContext, out: ResponseMetadata,
                 ghost handled: Option<string>)
    returns (o: StepOutcome)
    requires s.Regular? && pc.cacheHit == None
    modifies ctx, pc, out
    ensures pc.cacheHit == None
    ensures Agrees(o, Drive(env, fuel, PlanJoin(env, Pending(s, "join", target, isLast,
                                                             old(FrameOf(pc, out, handled))), config,
                                                input, old(WorldOf(ctx, store)))), ctx, store, pc, out, handled)
  {
    hide FinishRegular, Recover;
    match JoinNames(env, s, config) {
      case Err(e) => o := RecoverStep(s, e, ctx, store, pc, out, handled);
      case Ok(names) =>
        var results := CollectTasks(names, ctx);
        var value := Insert(input, "async", Object(results));
        o := ApplyStepResult(env, s, "join", target, isLast, Response(value, JSON_TYPE, None), ctx, store, pc, out,
                             handled);
    }
  }

  method RunNamed(env: Env, fuel: nat, s: Step, target: Target, isLast: bool, config: string, input: Json,
                  ctx: RequestContext, store: CacheStore, pc: PipelineContext, out: ResponseMetadata,
                  ghost handled: Option<string>)
    returns (o: StepOutcome)
    requires s.Regular? && Ready(env, store) && pc.cacheHit == None
    modifies ctx, store, pc, out
    ensures o.Exhausted? || (Ready(env, store) && pc.cacheHit == None)
    ensures Agrees(o, Drive(env, fuel, PlanNamed(env, Pending(s, "pipeline", target, isLast,
                                                              old(FrameOf(pc, out, handled))),
                                                 config, input, old(WorldOf(ctx, store)))),
                   ctx, store, pc, out, handled)
    decreases fuel, 1
  {
    hide Drive, RunPipeline, FinishRegular, Recover, ResolveNamed, CallInput, Trim;
    ghost var w, p := WorldOf(ctx, store), Pending(s, "pipeline", target, isLast, FrameOf(pc, out, handled));
    match ResolveNamed(env, s.loc, Trim(config)) {
      case None =>
        DriveDone(env, fuel, Recover(s, p.frame, PipelineNotFound(Trim(config)), w));
        o := RecoverStep(s, PipelineNotFound(Trim(config)), ctx, store, pc, out, handled);
      case Some(pipeline) =>
        match CallInput(env, s.args, input) {
          case Err(e) =>
            DriveDone(env, fuel, Recover(s, p.frame, e, w));
            o := RecoverStep(s, e, ctx, store, pc, out, handled);
          case Ok(arg) =>
            DriveCall(env, fuel, pipeline, arg, None, KNamed(p), w);
            if fuel == 0 { return Exhausted; }
            ghost var run := RunPipeline(env, fuel - 1, pipeline, arg, None, w);
            var r := ExecutePipeline(env, fuel - 1, pipeline, arg, None, ctx, store);
            match r {
              case Unfinished => o := Exhausted;
              case Aborted(e) =>
                DriveDone(env, fuel, Finish(env, KNamed(p), run).end);
                o := RecoverStep(s, e, ctx, store, pc, out, handled);
              case Completed(value) =>
                DriveDone(env, fuel, Finish(env, KNamed(p), run).end);
                o := ApplyStepResult(env, s, "pipeline", target, isLast, value, ctx, store, pc, out, handled);
            }
        }
    }
  }

  // ----- async -----

  /** Run the task in a context of its own and register its outcome under its name. */
  method SpawnTask(env: Env, fuel: nat, name: string, job: Job, ctx: RequestContext, store: CacheStore,
                   pc: PipelineContext, out: ResponseMetadata, ghost handled: Option<string>)
    returns (o: StepOutcome)
    requires Ready(env, store)
    modifies ctx, store
    ensures o.Exhausted? || Ready(env, store)
    ensures Agrees(o, Drive(env, fuel, Fork(name, job, old(FrameOf(pc, out, handled)), old(WorldOf(ctx, store)))),
                   ctx, store, pc, out, handled)
    decreases fuel, 1
  {
    hide RunPipeline, FinishRegular, Finish, RunCall, Show, WithLocation;
    var taskCtx := new RequestContext(ctx.outside);
    match job {
      case JobFailed(e) =>
        ctx.Register(name, TaskError(Show(e)));
      case JobCall(call, input, loc) =>
        var t := CallTask(env, call, input, loc, taskCtx, store);
        ctx.outside := taskCtx.outside;
        ctx.Register(name, t);
      case JobPipeline(pipeline, input, loc) =>
        if fuel == 0 { return Exhausted; }
        var r := ExecutePipeline(env, fuel - 1, pipeline, input, None, taskCtx, store);
        if r.Unfinished? { return Exhausted; }
        ctx.outside := taskCtx.outside;
        ctx.Register(name, if r.Completed? then TaskValue(r.out.body) else TaskError(Show(WithLocation(r.error, loc))));
    }
    return Proceed;
  }

  method CallTask(env: Env, call: Invocation, input: Json, loc: Location, ctx: RequestContext, store: CacheStore)
    returns (t: Task)
    requires Ready(env, store)
    modifies ctx, store
    ensures Ready(env, store)
    ensures var r := RunCall(env, call, input, old(WorldOf(ctx, store)));
            t == JobOutcome(r, loc) && WorldOf(ctx, store) == r.w
  {
    hide CacheLookup;
    if IsCache(env, call.name) {
      var scratch := new PipelineContext(input);
      ConsultCache(env, None, call.config, input, ctx, store, scratch);
      t := TaskValue(input);
    } else {
      match env.invoke(call, input, ctx.View()) {
        case MiddlewareErr(e, shared) =>
          ctx.Adopt(shared);
          t := TaskError(Show(WithLocation(e, loc)));
        case MiddlewareOk(state, _, shared) =>
          ctx.Adopt(shared);
          t := TaskValue(state);
      }
    }
  }

  // ----- regular steps -----

  /** Look ahead for a step that would still run. */
  method IsEffectivelyLast(rest: seq<Step>, env: Env, shared: Shared, state: Json) returns (last: bool)
    ensures last == IsLast(rest, env, shared, state)
  {
    for i := 0 to |rest|
      invariant forall j :: 0 <= j < i ==> rest[j].Regular? && !ShouldExecute(rest[j].condition, env, shared, state)
    {
      if !rest[i].Regular? || ShouldExecute(rest[i].condition, env, shared, state) {
        return false;
      }
    }
    return true;
  }

  method ExecuteRegular(env: Env, fuel: nat, s: Step, idx: nat, rest: seq<Step>,
                        ctx: RequestContext, store: CacheStore, pc: PipelineContext, out: ResponseMetadata,
                        ghost handled: Option<string>)
    returns (o: StepOutcome)
    requires s.Regular? && Ready(env, store) && pc.cacheHit == None
    modifies ctx, store, pc, out
    ensures o.Exhausted? || (Ready(env, store) && pc.cacheHit == None)
    ensures Agrees(o, Drive(env, fuel, PlanRegular(env, s, idx, rest, old(FrameOf(pc, out, handled)),
                                                   old(WorldOf(ctx, store)))),
                   ctx, store, pc, out, handled)
    decreases fuel, 2
  {
    hide PlanStandard, PlanNamed, PlanJoin, PlanJob, IsLast, ResolveConfig, TargetName, ShouldExecute, LogCall;
    if !ShouldExecute(s.condition, env, ctx.View(), pc.state) {
      return Proceed;
    }
    var isLast := IsEffectivelyLast(rest, env, ctx.View(), pc.state);
    var name := EffectiveName(env, s);
    var raw := RawConfig(env, s);
    var task := ConditionArgument(s.condition, "async");
    if task.Some? {
      o := SpawnTask(env, fuel, task.value, PlanJob(env, s, name, raw, pc.state), ctx, store, pc, out, handled);
      return;
    }
    var r := ResolveConfig(env, s.loc, name, raw, pc.state);
    ghost var w0 := WorldOf(ctx, store);
    if name == "pipeline" {
      ctx.RecordPipelineCall(r.config, r.input);
      assert WorldOf(ctx, store) == LogCall(w0, r.config, r.input);
    }
    if r.autoNamed {
      pc.state := r.input;
    }
    var target := TargetName(s.condition, pc.state, r.autoNamed);
    if name == "join" {
      o := RunJoin(env, s, target, isLast, r.config, r.input, fuel, ctx, store, pc, out, handled);
    } else if name == "pipeline" {
      o := RunNamed(env, fuel, s, target, isLast, r.config, r.input, ctx, store, pc, out, handled);
    } else {
      o := RunStandard(env, s, name, target, isLast, idx, r.config, r.input, ctx, store, pc, out, handled);
    }
  }

  // ----- control flow -----

  /** Run a branch on the state and merge back its state and metadata. */
  method ExecuteBranch(env: Env, fuel: nat, p: Pipeline, ctx: RequestContext, store: CacheStore,
                       pc: PipelineContext, out: ResponseMetadata, ghost handled: Option<string>)
    returns (o: StepOutcome)
    requires Ready(env, store)
    modifies ctx, store, pc, out
    ensures o.Exhausted? || (Ready(env, store) && pc.cacheHit == old(pc.cacheHit))
    ensures var f := old(FrameOf(pc, out, handled));
            Agrees(o, Drive(env, fuel, Call(p, f.state, None, KBranch(f), old(WorldOf(ctx, store)))), ctx, store, pc,
                   out, handled)
    decreases fuel, 1
  {
    hide Drive, RunPipeline, FinishRegular, Recover;
    ghost var f, w := FrameOf(pc, out, handled), WorldOf(ctx, store);
    DriveCall(env, fuel, p, pc.state, None, KBranch(f), w);
    if fuel == 0 { return Exhausted; }
    ghost var run := RunPipeline(env, fuel - 1, p, pc.state, None, w);
    var input := pc.state;
    pc.state := Null;
    var r := ExecutePipeline(env, fuel - 1, p, input, None, ctx, store);
    match r {
      case Unfinished => return Exhausted;
      case Aborted(e) =>
        DriveDone(env, fuel, Raised(e, WorldOf(ctx, store)));
        return Abort(e);
      case Completed(value) =>
        DriveDone(env, fuel, Finish(env, KBranch(f), run).end);
        pc.state := value.body;
        if value.status.Some? {
          out.status := value.status;
        }
        if value.contentType != JSON_TYPE {
          out.contentType := value.contentType;
        }
        return Proceed;
    }
  }

  method HandleIf(env: Env, fuel: nat, test: Pipeline, thenBranch: Pipeline, elseBranch: Option<Pipeline>,
                  ctx: RequestContext, store: CacheStore, pc: PipelineContext, out: ResponseMetadata,
                  ghost handled: Option<string>)
    returns (o: StepOutcome)
    requires Ready(env, store)
    modifies ctx, store, pc, out
    ensures o.Exhausted? || (Ready(env, store) && pc.cacheHit == old(pc.cacheHit))
    ensures var f := old(FrameOf(pc, out, handled));
            Agrees(o, Drive(env, fuel, Call(test, f.state, None, KIf(thenBranch, elseBranch, f),
                                            old(WorldOf(ctx, store)))),
                   ctx, store, pc, out, handled)
    decreases fuel, 2
  {
    hide Drive, RunPipeline, FinishRegular, Recover;
    ghost var f, w := FrameOf(pc, out, handled), WorldOf(ctx, store);
    DriveCall(env, fuel, test, pc.state, None, KIf(thenBranch, elseBranch, f), w);
    if fuel == 0 { return Exhausted; }
    var r := ExecutePipeline(env, fuel - 1, test, pc.state, None, ctx, store);
    match r {
      case Unfinished => o := Exhausted;
      case Aborted(e) =>
        DriveDone(env, fuel, Raised(e, WorldOf(ctx, store)));
        o := Abort(e);
      case Completed(value) =>
        if Truthy(value.body) {
          o := ExecuteBranch(env, fuel, thenBranch, ctx, store, pc, out, handled);
        } else if elseBranch.Some? {
          o := ExecuteBranch(env, fuel, elseBranch.value, ctx, store, pc, out, handled);
        } else {
          DriveDone(env, fuel, Continue(f, WorldOf(ctx, store)));
          o := Proceed;
        }
    }
  }

  /** The first branch whose condition holds, else the default. */
  method MatchCase(cases: seq<DispatchBranch>, default: Option<Pipeline>, env: Env, shared: Shared, state: Json)
    returns (p: Option<Pipeline>)
    ensures p == SelectCase(cases, default, env, shared, state)
    ensures forall i :: 0 <= i < |cases| && CheckTagExpr(cases[i].condition, Context(env, shared), state)
                        && (forall j :: 0 <= j < i ==> !CheckTagExpr(cases[j].condition, Context(env, shared),
                                                                     state)) ==>
              p == Some(cases[i].pipeline)
    ensures (forall i :: 0 <= i < |cases| ==> !CheckTagExpr(cases[i].condition, Context(env, shared), state)) ==>
        p == default
  {
    for i := 0 to |cases|
      invariant forall j :: 0 <= j < i ==> !CheckTagExpr(cases[j].condition, Context(env, shared), state)
      invariant SelectCase(cases[i..], default, env, shared, state) == SelectCase(cases, default, env, shared, state)
    {
      assert cases[i..][1..] == cases[i + 1..];
      if CheckTagExpr(cases[i].condition, Context(env, shared), state) {
        return Some(cases[i].pipeline);
      }
    }
    return default;
  }

  /** Run the body on every item of the selected array and put the results in its place. */
  method HandleForeach(env: Env, fuel: nat, selector: string, body: Pipeline,
                       ctx: RequestContext, store: CacheStore, pc: PipelineContext, out: ResponseMetadata,
                       ghost handled: Option<string>)
    returns (o: StepOutcome)
    requires Ready(env, store)
    modifies ctx, store, pc, out
    ensures o.Exhausted? || (Ready(env, store) && pc.cacheHit == old(pc.cacheHit))
    ensures Agrees(o, Drive(env, fuel, PlanForeach(selector, body, old(FrameOf(pc, out, handled)),
                                                   old(WorldOf(ctx, store)))),
                   ctx, store, pc, out, handled)
    decreases fuel, 2
  {
    hide Drive, RunPipeline, FinishRegular, Recover, GetPath, SetPath, ParsePath, Replay, Apply;
    var parts := ParsePath(selector);
    var selected := GetPath(pc.state, parts);
    if selected.None? || !selected.value.Array? {
      o := Abort(MiddlewareFailed("foreach: path '" + selector + "' is not an array or does not exist"));
      DriveDone(env, fuel, Raised(o.error, WorldOf(ctx, store)));
      return;
    }
    var items := selected.value.items;
    pc.state := SetPath(pc.state, parts, Null);
    ghost var goal := Drive(env, fuel, PlanForeach(selector, body, old(FrameOf(pc, out, handled)),
                                                   old(WorldOf(ctx, store))));
    var results: seq<Json> := [];
    assert items[0..] == items;
    for i := 0 to |items|
      invariant Ready(env, store) && pc.cacheHit == old(pc.cacheHit)
      invariant goal == Drive(env, fuel, NextItem(parts, body, items[i..], results, FrameOf(pc, out, handled),
                                                  WorldOf(ctx, store)))
    {
      assert items[i..][1..] == items[i + 1..];
      ghost var f := FrameOf(pc, out, handled);
      DriveCall(env, fuel, body, items[i], None, KForeach(parts, body, items[i + 1..], results, f),
                WorldOf(ctx, store));
      if fuel == 0 { return Exhausted; }
      var r := ExecutePipeline(env, fuel - 1, body, items[i], None, ctx, store);
      match r {
        case Unfinished => return Exhausted;
        case Aborted(e) =>
          DriveDone(env, fuel, Raised(e, WorldOf(ctx, store)));
          return Abort(e);
        case Completed(value) => results := results + [value.body];
      }
    }
    assert items[|items|..] == [];
    pc.state := SetPath(pc.state, parts, Array(results));
    DriveDone(env, fuel, Continue(FrameOf(pc, out, handled), WorldOf(ctx, store)));
    return Proceed;
  }

  method HandleResult(env: Env, fuel: nat, branches: seq<ResultBranch>,
                      ctx: RequestContext, store: CacheStore, pc: PipelineContext, out: ResponseMetadata,
                      ghost handled: Option<string>)
    returns (o: StepOutcome)
    requires Ready(env, store)
    modifies ctx, store, pc, out
    ensures o.Exhausted? || (Ready(env, store) && pc.cacheHit == old(pc.cacheHit))
    ensures Agrees(o, Drive(env, fuel, PlanResult(branches, old(FrameOf(pc, out, handled)), old(WorldOf(ctx, store)))),
                   ctx, store, pc, out, handled)
    decreases fuel, 2
  {
    hide Drive, RunPipeline, FinishRegular, Recover, SelectBranch, ErrorType;
    var errorType := ErrorType(pc.state);
    ghost var f, w := FrameOf(pc, out, handled), WorldOf(ctx, store);
    match SelectBranch(branches, errorType) {
      case None =>
        DriveDone(env, fuel, Return(Response(f.state, f.contentType, f.status), f, w));
        return Finished(Response(pc.state, out.contentType, out.status));
      case Some(branch) =>
        var cookies := Get(pc.state, "setCookies");
        var input := pc.state;
        pc.state := Null;
        ghost var k := KResult(branch.status, cookies, f);
        DriveCall(env, fuel, branch.pipeline, input, errorType, k, w);
        if fuel == 0 { return Exhausted; }
        ghost var run := RunPipeline(env, fuel - 1, branch.pipeline, input, errorType, w);
        var r := ExecutePipeline(env, fuel - 1, branch.pipeline, input, errorType, ctx, store);
        match r {
          case Unfinished => return Exhausted;
          case Aborted(e) =>
            DriveDone(env, fuel, Raised(e, WorldOf(ctx, store)));
            return Abort(e);
          case Completed(value) =>
            DriveDone(env, fuel, Finish(env, k, run).end);
            pc.state := value.body;
            if cookies.Some? && pc.state.Object? && "setCookies" !in pc.state.fields {
              pc.state := Insert(pc.state, "setCookies", cookies.value);
            }
            var contentType := if value.contentType != JSON_TYPE then value.contentType else out.contentType;
            return Finished(Response(pc.state, contentType, Some(branch.status)));
        }
    }
  }

  method ExecuteStep(env: Env, fuel: nat, s: Step, idx: nat, rest: seq<Step>,
                     ctx: RequestContext, store: CacheStore, pc: PipelineContext, out: ResponseMetadata,
                     ghost handled: Option<string>)
    returns (o: StepOutcome)
    requires Ready(env, store) && pc.cacheHit == None
    modifies ctx, store, pc, out
    ensures o.Exhausted? || (Ready(env, store) && pc.cacheHit == None)
    ensures Agrees(o, Drive(env, fuel, PlanStep(env, s, idx, rest, old(FrameOf(pc, out, handled)),
                                                old(WorldOf(ctx, store)))),
                   ctx, store, pc, out, handled)
    decreases fuel, 3
  {
    hide PlanRegular, PlanForeach, PlanResult;
    match s {
      case Regular(_, _, _, _, _, _, _) =>
        o := ExecuteRegular(env, fuel, s, idx, rest, ctx, store, pc, out, handled);
      case Result(branches, _) =>
        o := HandleResult(env, fuel, branches, ctx, store, pc, out, handled);
      case If(test, thenBranch, elseBranch, _) =>
        o := HandleIf(env, fuel, test, thenBranch, elseBranch, ctx, store, pc, out, handled);
      case Dispatch(cases, default, _) =>
        var matched := MatchCase(cases, default, env, ctx.View(), pc.state);
        if matched.Some? {
          o := ExecuteBranch(env, fuel, matched.value, ctx, store, pc, out, handled);
        } else {
          o := Proceed;
        }
      case Foreach(selector, body, _) =>
        o := HandleForeach(env, fuel, selector, body, ctx, store, pc, out, handled);
    }
  }

  /** The step loop. */
  method ExecutePipeline(env: Env, fuel: nat, p: Pipeline, input: Json, handledAtEntry: Option<string>,
                         ctx: RequestContext, store: CacheStore)
    returns (r: PipelineResult)
    requires Ready(env, store)
    modifies ctx, store
    ensures r.Unfinished? || Ready(env, store)
    ensures RunAgrees(r, RunPipeline(env, fuel, p, input, handledAtEntry, old(WorldOf(ctx, store))), ctx, store)
    decreases fuel, 4
  {
    hide PlanStep, Drive, Settle, ErrorType;
    var handled := handledAtEntry;
    var pc := new PipelineContext(input);
    var out := new ResponseMetadata(JSON_TYPE, None);
    ghost var goal := Loop(env, fuel, p.steps, 0, Start(input, handledAtEntry), WorldOf(ctx, store));
    assert p.steps[0..] == p.steps;
    for idx := 0 to |p.steps|
      invariant Ready(env, store) && pc.cacheHit == None
      invariant goal == Loop(env, fuel, p.steps[idx..], idx, FrameOf(pc, out, handled), WorldOf(ctx, store))
    {
      var step := p.steps[idx];
      assert p.steps[idx..][1..] == p.steps[idx + 1..];
      var current := ErrorType(pc.state);
      if handled != current {
        handled := None;
      }
      if current.Some? && handled.None? && !step.Result? {
        continue;
      }
      var o := ExecuteStep(env, fuel, step, idx, p.steps[idx + 1..], ctx, store, pc, out, handled);
      match o {
        case Exhausted => return Unfinished;
        case Abort(e) => return Aborted(e);
        case Finished(response) =>
          RunPendingSaves(env, pc.pendingSaves, response, ctx, store);
          return Completed(response);
        case Proceed =>
      }
    }
    var response := Response(pc.state, out.contentType, out.status);
    RunPendingSaves(env, pc.pendingSaves, response, ctx, store);
    return Completed(response);
  }
}

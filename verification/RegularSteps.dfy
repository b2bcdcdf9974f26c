/** What a regular step that runs does, from its name to the state it leaves, in each of its modes. */
module RegularSteps {
  import opened Base
  import opened JsonValues
  import opened Tags
  import opened Ast
  import opened Responses
  import opened Runtime
  import opened StateFolding
  import opened Steps
  import opened Interpreter
  import opened Conditions

  // ----- what the step starts from -----

  /** The middleware and the config text a step stands for: `pipeline` and its config, a bare unregistered name in place
      of a call of that pipeline, or a middleware and its config. */
  predicate Calls(env: Env, s: Step, name: string, text: string)
    requires s.Regular?
  {
    if s.name != "pipeline" && !s.configPresent && s.name != "loader" && s.name !in env.behaviors
    then name == "pipeline" && text == s.name
    else name == s.name && text == s.config
  }

  /** What the step is given: the text as it is, or the value of the variable it names; a variable's name also
      becomes the automatic result name of an object that has none. */
  predicate Given(env: Env, s: Step, name: string, text: string, state: Json, config: string, input: Json, auto: bool)
    requires s.Regular?
  {
    match ResolveVariable(env, s.loc, name, text)
    case None => config == text && input == state && !auto
    case Some(v) =>
      && config == v.value
      && auto == (state.Object? && "resultName" !in state.fields)
      && input == if auto then Object(state.fields["resultName" := String(v.name)]) else state
  }

  /** The `@result` name, else a result name of the input that is text. */
  predicate Targets(s: Step, input: Json, target: Option<string>)
    requires s.Regular?
  {
    var tagged := ConditionArgument(s.condition, "result");
    if tagged.Some? then target == tagged
    else if input.Object? && "resultName" in input.fields && input.fields["resultName"].String?
    then target == Some(input.fields["resultName"].s)
    else target == None
  }

  /** All of it, for a step that runs and is no task. */
  datatype Setup = Setup(name: string, config: string, input: Json, auto: bool, target: Option<string>)

  predicate Prepared(env: Env, s: Step, f: Frame, w: World, c: Setup)
    requires s.Regular?
  {
    && Runs(s.condition, env, w.shared, f.state) && ConditionArgument(s.condition, "async") == None
    && (exists text | text in [s.name, s.config] ::
          Calls(env, s, c.name, text) && Given(env, s, c.name, text, f.state, c.config, c.input, c.auto))
    && Targets(s, c.input, c.target)
  }

  /** That is what the step's plan starts from. */
  lemma PreparedAs(env: Env, s: Step, f: Frame, w: World, c: Setup)
    requires s.Regular? && Prepared(env, s, f, w, c)
    ensures ShouldExecute(s.condition, env, w.shared, f.state) && ConditionArgument(s.condition, "async") == None
    ensures c.name == EffectiveName(env, s)
    ensures ResolveConfig(env, s.loc, c.name, RawConfig(env, s), f.state) == Resolved(c.config, c.input, c.auto)
    ensures TargetName(s.condition, c.input, c.auto).name == c.target
    ensures TargetName(s.condition, c.input, c.auto).cleanup ==
            (c.auto && ConditionArgument(s.condition, "result") == None)
  {
    RunsMeans(s.condition, env, w.shared, f.state);
    hide Runs, ShouldExecute, ConditionArgument, ResolveVariable;
    if c.auto { assert c.input.fields["resultName"].String?; }
  }

  // ----- what it makes of a result -----

  predicate Fetches(name: string) { name == "pg" || name == "fetch" || name == "graphql" }

  predicate SetsType(name: string) {
    name == "pipeline" || name == "handlebars" || name == "gg" || name == "algraf" || name == "ag"
  }

  /** The `value` is the result with its error retyped. It goes under `data` if a fetching middleware has a target
      and it is no typed error, and is folded in by the behavior of the middleware otherwise, merged if that is
      unknown; an automatic result name is dropped again. Status and content type are the result's where it sets
      them: the content type of a step that is not last counts only if it is not JSON and comes from a rendering
      step or a pipeline. */
  ghost predicate Stores(env: Env, s: Step, c: Setup, last: bool, f: Frame, r: Response, value: Json, folded: Json,
                         g: Frame)
    requires s.Regular?
  {
    && Retypes(r.body, ConditionArgument(s.condition, "error"), value)
    && (if c.target.Some? && Fetches(c.name) && forall t :: !Carries(value, t)
        then Wraps(c.input, c.target.value, value, folded)
        else Folds(c.input, value, if c.name in env.behaviors then env.behaviors[c.name] else Merge, last, folded))
    && g == f.(state := g.state, contentType := g.contentType, status := g.status)
    && (if c.auto && ConditionArgument(s.condition, "result") == None then Drops(folded, "resultName", g.state)
        else g.state == folded)
    && g.status == (if r.status == None then f.status else r.status)
    && g.contentType == (if last || (r.contentType != "application/json" && SetsType(c.name)) then r.contentType
                         else f.contentType)
  }

  function PendingOf(env: Env, s: Step, rest: seq<Step>, f: Frame, w: World, c: Setup): Pending
    requires s.Regular?
  {
    Pending(s, c.name, TargetName(s.condition, c.input, c.auto), IsLast(rest, env, w.shared, f.state),
            f.(state := c.input))
  }

  lemma FoldedValue(env: Env, p: Pending, value: Json, c: Setup)
    requires p.step.Regular? && p.name == c.name && p.target.name == c.target && p.frame.state == c.input
    ensures var folded := ApplyResult(env, p, value);
            if c.target.Some? && Fetches(c.name) && forall t :: !Carries(value, t)
            then Wraps(c.input, c.target.value, value, folded)
            else Folds(c.input, value, if c.name in env.behaviors then env.behaviors[c.name] else Merge, p.isLast,
                       folded)
  {
    hide Wraps, Folds, Carries, WrapData, UpdateState, ErrorType;
    if ErrorType(value).Some? { ErrorTypeMeans(value, ErrorType(value).value); }
    else { forall t ensures !Carries(value, t) { ErrorTypeMeans(value, t); } }
    if c.target.Some? { DataWraps(c.input, c.target.value, value); }
    UpdateFolds(c.input, value, BehaviorOf(env, p.name), p.isLast);
  }

  lemma FinishShape(env: Env, p: Pending, r: Response, v: World)
    requires p.step.Regular?
    ensures var folded := ApplyResult(env, p, OverrideErrorType(r.body, ConditionArgument(p.step.condition, "error")));
            var counts := p.isLast || (r.contentType != "application/json" && SetsType(p.name));
            FinishRegular(env, p, r, None, v)
              == Continue(p.frame.(state := if p.target.cleanup then Remove(folded, "resultName") else folded,
                                   contentType := if counts then r.contentType else p.frame.contentType,
                                   status := if r.status == None then p.frame.status else r.status), v)
  {
  }

  lemma ResultStored(env: Env, s: Step, rest: seq<Step>, f: Frame, w: World, c: Setup, r: Response, v: World)
    returns (value: Json, folded: Json)
    requires s.Regular? && Prepared(env, s, f, w, c)
    ensures var end := FinishRegular(env, PendingOf(env, s, rest, f, w, c), r, None, v);
            && end.Continue? && end.w == v
            && Stores(env, s, c, NothingRuns(rest, env, w.shared, f.state), f, r, value, folded, end.frame)
  {
    PreparedAs(env, s, f, w, c);
    LookaheadMeans(rest, env, w.shared, f.state);
    var p := PendingOf(env, s, rest, f, w, c);
    value := OverrideErrorType(r.body, ConditionArgument(s.condition, "error"));
    OverrideRetypes(r.body, ConditionArgument(s.condition, "error"));
    folded := ApplyResult(env, p, value);
    hide Prepared, NothingRuns, IsLast, FinishRegular, OverrideErrorType, Retypes, ApplyResult, Wraps, Folds, Carries,
         Drops, Remove;
    FoldedValue(env, p, value, c);
    RemoveDrops(folded, "resultName");
    FinishShape(env, p, r, v);
  }

  // ----- what it makes of a failure -----

  /** The file and the lines the step covers, as far as it knows them. */
  predicate Labels(loc: Location, text: string) {
    var lines := if loc.line < loc.endLine then Decimal(loc.line) + "-" + Decimal(loc.endLine) else Decimal(loc.line);
    text == (if loc.file == None || loc.file == Some("") then "line " + lines else loc.file.value + ":" + lines)
  }

  /** An error is located once, by the first step with a position that sees it. */
  predicate LocatedAt(e: WebPipeError, loc: Location, located: WebPipeError) {
    if e.Located? || loc.line == 0 then located == e
    else located.Located? && located.source == e && Labels(loc, located.location)
  }

  /** One error with its type, message and step, and where it happened if that is known. */
  predicate Envelope(s: Step, message: string, location: Option<string>, v: Json)
    requires s.Regular?
  {
    && v.Object? && v.fields.Keys == {"errors"} && v.fields["errors"].Array? && |v.fields["errors"].items| == 1
    && var e := v.fields["errors"].items[0];
       var tagged := ConditionArgument(s.condition, "error");
       && e.Object? && e.fields.Keys == {"type", "message", "step"} + (if location.Some? then {"location"} else {})
       && e.fields["type"] == String(if tagged.Some? then tagged.value else s.name + "Error")
       && e.fields["message"] == String(message) && e.fields["step"] == String(s.name)
       && (location.Some? ==> e.fields["location"] == String(location.value))
  }

  /** A middleware failure leaves its envelope as the state and the run goes on; any other error is raised. */
  predicate Fails(s: Step, f: Frame, e: WebPipeError, located: WebPipeError, w: World, end: StepEnd)
    requires s.Regular?
  {
    && LocatedAt(e, s.loc, located)
    && match located
       case MiddlewareFailed(m) =>
         end.Continue? && end == Continue(f.(state := end.frame.state), w) && Envelope(s, m, None, end.frame.state)
       case Located(l, MiddlewareFailed(m)) =>
         end.Continue? && end == Continue(f.(state := end.frame.state), w) && Envelope(s, m, Some(l), end.frame.state)
       case _ => end == Raised(located, w)
  }

  lemma ErrorLocated(e: WebPipeError, loc: Location)
    ensures LocatedAt(e, loc, WithLocation(e, loc))
  {
  }

  lemma EnvelopeLeft(s: Step, message: string, location: Option<string>)
    requires s.Regular?
    ensures Envelope(s, message, location, OverrideErrorType(MiddlewareErrorValue(s.name, message, location),
                                                             ConditionArgument(s.condition, "error")))
  {
    hide ConditionArgument;
  }

  lemma RecoverFails(s: Step, f: Frame, e: WebPipeError, w: World)
    requires s.Regular?
    ensures Fails(s, f, e, WithLocation(e, s.loc), w, Recover(s, f, e, w))
  {
    ErrorLocated(e, s.loc);
    var failure := MiddlewareFailure(WithLocation(e, s.loc));
    if failure.Some? { EnvelopeLeft(s, failure.value.message, failure.value.location); }
    hide LocatedAt, WithLocation, Envelope, OverrideErrorType, MiddlewareErrorValue;
  }

  // ----- the modes -----

  lemma PreparedPlan(env: Env, s: Step, idx: nat, rest: seq<Step>, f: Frame, w: World, c: Setup)
    requires s.Regular? && Prepared(env, s, f, w, c)
    ensures var p := PendingOf(env, s, rest, f, w, c);
            PlanStep(env, s, idx, rest, f, w)
              == if c.name == "join" then PlanJoin(env, p, c.config, c.input, w)
                 else if c.name == "pipeline" then PlanNamed(env, p, c.config, c.input, LogCall(w, c.config, c.input))
                 else Done(PlanStandard(env, p, idx, c.config, c.input, w))
  {
    PreparedAs(env, s, f, w, c);
    hide Prepared, ShouldExecute, ConditionArgument, TargetName, IsLast, PlanJoin, PlanNamed, PlanStandard, LogCall;
    assert ResolveConfig(env, s.loc, c.name, RawConfig(env, s), f.state) == Resolved(c.config, c.input, c.auto);
    InputKept(env, s, f, w, c);
  }

  lemma InputKept(env: Env, s: Step, f: Frame, w: World, c: Setup)
    requires s.Regular? && Prepared(env, s, f, w, c)
    ensures !c.auto ==> c.input == f.state
  {
  }

  /** A middleware is called once, with the step's arguments, config and target, on the prepared input and the request
      as it is; its value is stored, its failure recovered from. */
  lemma {:induction false} MiddlewareStep(env: Env, fuel: nat, s: Step, idx: nat, rest: seq<Step>, f: Frame, w: World,
                                          c: Setup)
    returns (value: Json, folded: Json, located: WebPipeError)
    requires s.Regular? && Prepared(env, s, f, w, c)
    requires c.name != "join" && c.name != "pipeline" && !(c.name == "cache" && "cache" in env.behaviors)
    ensures var r := Drive(env, fuel, PlanStep(env, s, idx, rest, f, w));
            match env.invoke(Invocation(c.name, s.args, c.config, c.target), c.input, w.shared)
            case MiddlewareErr(e, shared) =>
              r.Ended? && Fails(s, f.(state := c.input), e, located, w.(shared := shared), r.end)
            case MiddlewareOk(v, contentType, shared) =>
              && r.Ended? && r.end.Continue? && r.end.w == w.(shared := shared)
              && Stores(env, s, c, NothingRuns(rest, env, w.shared, f.state), f,
                        Response(v, if contentType.Some? then contentType.value else "application/json", None),
                        value, folded, r.end.frame)
  {
    PreparedAs(env, s, f, w, c);
    PreparedPlan(env, s, idx, rest, f, w, c);
    var p := PendingOf(env, s, rest, f, w, c);
    hide Prepared, PlanStep, FinishRegular, Recover, Fails, Stores, NothingRuns, TargetName, IsLast;
    match env.invoke(Invocation(c.name, s.args, c.config, c.target), c.input, w.shared)
    case MiddlewareErr(e, shared) =>
      located := WithLocation(e, s.loc);
      value, folded := Null, Null;
      RecoverFails(s, f.(state := c.input), e, w.(shared := shared));
    case MiddlewareOk(v, contentType, shared) =>
      located := OtherError("");
      value, folded := ResultStored(env, s, rest, f, w, c,
                                    Response(v, if contentType.Some? then contentType.value else "application/json",
                                             None), w.(shared := shared));
  }

  // ----- calls of pipelines -----

  /** The call is noted, with its input, behind the earlier ones of that pipeline; nothing else changes. */
  predicate Noted(w: World, config: string, input: Json, v: World) {
    var key := "pipeline." + Trim(config);
    var log := v.shared.callLog;
    && v == w.(shared := w.shared.(callLog := log))
    && log.Keys == w.shared.callLog.Keys + {key}
    && log[key] == (if key in w.shared.callLog then w.shared.callLog[key] else []) + [input]
    && forall k :: k in log && k != key ==> log[k] == w.shared.callLog[k]
  }

  lemma CallNoted(w: World, config: string, input: Json)
    ensures Noted(w, config, input, LogCall(w, config, input))
  {
    hide Trim;
  }

  /** The pipeline's input: the step's, with the entries of its evaluated first argument laid over it if both are
      objects; another argument replaces it. */
  predicate Passes(env: Env, args: seq<string>, input: Json, arg: Json) {
    if args == [] then arg == input
    else
      var r := env.jq(args[0], input);
      r.Ok? && if input.Object? && r.value.Object?
               then arg.Object? && Overlays(r.value.fields, input.fields, k => true, arg.fields)
               else arg == r.value
  }

  lemma ArgumentPassed(env: Env, args: seq<string>, input: Json)
    ensures match CallInput(env, args, input)
            case Ok(arg) => Passes(env, args, input, arg)
            case Err(e) =>
              args != [] && env.jq(args[0], input).Err?
              && e == MiddlewareFailed("pipeline argument evaluation failed: " + env.jq(args[0], input).error)
  {
  }

  /** A call of a pipeline is noted, runs the pipeline the config names on the passed input in the request's own
      context, handling nothing, and stores its outcome, content type and status; an error of the pipeline, of the
      argument or a name that leads nowhere is the step's own. */
  lemma {:induction false} PipelineStep(env: Env, fuel: nat, s: Step, idx: nat, rest: seq<Step>, f: Frame, w: World,
                                        c: Setup)
    returns (v: World, arg: Json, value: Json, folded: Json, located: WebPipeError)
    requires s.Regular? && Prepared(env, s, f, w, c) && c.name == "pipeline" && fuel > 0
    ensures Noted(w, c.config, c.input, v)
    ensures var r := Drive(env, fuel, PlanStep(env, s, idx, rest, f, w));
            var base := f.(state := c.input);
            match ResolveNamed(env, s.loc, Trim(c.config))
            case None => r.Ended? && Fails(s, base, PipelineNotFound(Trim(c.config)), located, v, r.end)
            case Some(p) =>
              if s.args != [] && env.jq(s.args[0], c.input).Err? then
                r.Ended? && Fails(s, base, MiddlewareFailed("pipeline argument evaluation failed: "
                                                            + env.jq(s.args[0], c.input).error), located, v, r.end)
              else
                && Passes(env, s.args, c.input, arg)
                && match RunPipeline(env, fuel - 1, p, arg, None, v)
                   case Stuck => r.OutOfFuel?
                   case Failed(e, u) => r.Ended? && Fails(s, base, e, located, u, r.end)
                   case Value(out, u) =>
                     && r.Ended? && r.end.Continue? && r.end.w == u
                     && Stores(env, s, c, NothingRuns(rest, env, w.shared, f.state), f, out, value, folded, r.end.frame)
  {
    PreparedAs(env, s, f, w, c);
    PreparedPlan(env, s, idx, rest, f, w, c);
    CallNoted(w, c.config, c.input);
    ArgumentPassed(env, s.args, c.input);
    v := LogCall(w, c.config, c.input);
    value, folded, arg, located := Null, Null, Null, OtherError("");
    var p := PendingOf(env, s, rest, f, w, c);
    var base := f.(state := c.input);
    hide Prepared, PlanStep, FinishRegular, Recover, Fails, Stores, NothingRuns, TargetName, IsLast, Noted, LogCall,
         ResolveNamed, Trim, Passes, CallInput, RunPipeline;
    match ResolveNamed(env, s.loc, Trim(c.config))
    case None =>
      located := WithLocation(PipelineNotFound(Trim(c.config)), s.loc);
      RecoverFails(s, base, PipelineNotFound(Trim(c.config)), v);
    case Some(q) =>
      match CallInput(env, s.args, c.input)
      case Err(e) =>
        located := WithLocation(e, s.loc);
        RecoverFails(s, base, e, v);
      case Ok(a) =>
        arg := a;
        value, folded, located := CalledPipeline(env, fuel, s, rest, f, w, c, q, a, v);
  }

  lemma {:induction false} CalledPipeline(env: Env, fuel: nat, s: Step, rest: seq<Step>, f: Frame, w: World, c: Setup,
                                          p: Pipeline, arg: Json, v: World)
    returns (value: Json, folded: Json, located: WebPipeError)
    requires s.Regular? && Prepared(env, s, f, w, c) && fuel > 0
    ensures var r := Drive(env, fuel, Steps.Call(p, arg, None, KNamed(PendingOf(env, s, rest, f, w, c)), v));
            match RunPipeline(env, fuel - 1, p, arg, None, v)
            case Stuck => r.OutOfFuel?
            case Failed(e, u) => r.Ended? && Fails(s, f.(state := c.input), e, located, u, r.end)
            case Value(out, u) =>
              && r.Ended? && r.end.Continue? && r.end.w == u
              && Stores(env, s, c, NothingRuns(rest, env, w.shared, f.state), f, out, value, folded, r.end.frame)
  {
    value, folded, located := Null, Null, OtherError("");
    hide Prepared, FinishRegular, Recover, Fails, Stores, NothingRuns, TargetName, IsLast, RunPipeline;
    match RunPipeline(env, fuel - 1, p, arg, None, v)
    case Stuck =>
    case Failed(e, u) =>
      located := WithLocation(e, s.loc);
      RecoverFails(s, f.(state := c.input), e, u);
    case Value(out, u) => value, folded := ResultStored(env, s, rest, f, w, c, out, u);
  }

  // ----- joins -----

  /** The results are those of the named registered tasks: a value as it is, an error as an object that says so. */
  predicate Gathered(names: seq<string>, tasks: map<string, Task>, results: map<string, Json>) {
    && results.Keys == (set n | n in names && n in tasks)
    && forall n :: n in results ==>
         results[n] == match tasks[n]
                       case TaskValue(v) => v
                       case TaskError(m) => Object(map["error" := String(m)])
  }

  lemma {:induction false} CollectGathers(names: seq<string>, tasks: map<string, Task>)
    ensures Gathered(names, tasks, Collect(names, tasks))
    decreases |names|
  {
    if names != [] {
      var left := tasks - {names[0]};
      CollectGathers(names[1..], left);
      CollectGathers(names[1..], tasks);
      assert names == [names[0]] + names[1..];
      assert (set n | n in names && n in tasks)
          == (set n | n in names[1..] && n in left) + (if names[0] in tasks then {names[0]} else {});
    }
  }

  lemma {:induction false} RemainingLeft(names: seq<string>, tasks: map<string, Task>)
    ensures var left := Remaining(names, tasks);
            && left.Keys == (set n | n in tasks && n !in names)
            && forall n :: n in left ==> left[n] == tasks[n]
    decreases |names|
  {
    if names != [] {
      RemainingLeft(names[1..], tasks - {names[0]});
      assert names == [names[0]] + names[1..];
    }
  }

  /** A join takes the named tasks out of the registry, leaves the others, and stores its input with their results under
      `async`. */
  lemma {:induction false} JoinStep(env: Env, fuel: nat, s: Step, idx: nat, rest: seq<Step>, f: Frame, w: World,
                                    c: Setup)
    returns (results: map<string, Json>, value: Json, folded: Json, located: WebPipeError)
    requires s.Regular? && Prepared(env, s, f, w, c) && c.name == "join"
    ensures var r := Drive(env, fuel, PlanStep(env, s, idx, rest, f, w));
            match JoinNames(env, s, c.config)
            case Err(e) => r.Ended? && Fails(s, f.(state := c.input), e, located, w, r.end)
            case Ok(names) =>
              && Gathered(names, w.tasks, results)
              && r.Ended? && r.end.Continue? && r.end.w == w.(tasks := r.end.w.tasks)
              && r.end.w.tasks.Keys == (set n | n in w.tasks && n !in names)
              && (forall n :: n in r.end.w.tasks ==> r.end.w.tasks[n] == w.tasks[n])
              && Stores(env, s, c, NothingRuns(rest, env, w.shared, f.state), f,
                        Response(if c.input.Object? then Object(c.input.fields["async" := Object(results)])
                                 else c.input, "application/json", None),
                        value, folded, r.end.frame)
  {
    PreparedAs(env, s, f, w, c);
    PreparedPlan(env, s, idx, rest, f, w, c);
    results, value, folded, located := map[], Null, Null, OtherError("");
    var p := PendingOf(env, s, rest, f, w, c);
    JoinDriven(env, fuel, p, c.config, c.input, w);
    hide *;
    match JoinNames(env, s, c.config)
    case Err(e) =>
      located := WithLocation(e, s.loc);
      RecoverFails(s, f.(state := c.input), e, w);
    case Ok(names) =>
      results := Collect(names, w.tasks);
      CollectGathers(names, w.tasks);
      RemainingLeft(names, w.tasks);
      value, folded := ResultStored(env, s, rest, f, w, c,
                                    Response(if c.input.Object? then Object(c.input.fields["async" := Object(results)])
                                             else c.input, "application/json", None),
                                    w.(tasks := Remaining(names, w.tasks)));
  }

  lemma JoinDriven(env: Env, fuel: nat, p: Pending, config: string, input: Json, w: World)
    requires p.step.Regular?
    ensures Drive(env, fuel, PlanJoin(env, p, config, input, w)) ==
            match JoinNames(env, p.step, config)
            case Err(e) => Ended(Recover(p.step, p.frame, e, w))
            case Ok(names) =>
              var results := Object(Collect(names, w.tasks));
              var value := if input.Object? then Object(input.fields["async" := results]) else input;
              Ended(FinishRegular(env, p, Response(value, "application/json", None), None,
                                  w.(tasks := Remaining(names, w.tasks))))
  {
    hide FinishRegular, Recover, JoinNames, Collect, Remaining;
  }

  // ----- the cache -----

  function Consulted(env: Env, w: World, key: string, policy: CachePolicy): World {
    var now := env.clock(|w.history|);
    w.(shared := w.shared.(cachePolicy := Some(policy)), cache := LookupCache(env.limits, w.cache, key, now),
       history := w.history + [Lookup(key, now)])
  }

  /** A cache step consults the cache once, under the key of its own identity. A response that may be served ends the
      pipeline with it; otherwise the run notes a save for later and goes on with the input. */
  lemma {:induction false} CacheStep(env: Env, fuel: nat, s: Step, idx: nat, rest: seq<Step>, f: Frame, w: World,
                                     c: Setup)
    returns (value: Json, folded: Json)
    requires s.Regular? && Prepared(env, s, f, w, c) && c.name == "cache" && "cache" in env.behaviors
    ensures var r := Drive(env, fuel, PlanStep(env, s, idx, rest, f, w));
            var policy := env.cacheSettings(c.config);
            var key := env.cacheKey(Some(StepId(s, idx)), c.config, policy.keyTemplate, c.input);
            var out := LookupOutcome(env.limits, w.cache, key, env.clock(|w.history|));
            var last := NothingRuns(rest, env, w.shared, f.state);
            var input := Response(c.input, "application/json", None);
            && r.Ended?
            && if !policy.enabled then
                 && r.end.Continue? && r.end.w == w
                 && Stores(env, s, c, last, f, input, value, folded, r.end.frame)
               else if out.Fresh? || out.Stale? then
                 && r.end.Return? && r.end.w == Consulted(env, w, key, policy) && r.end.frame.saves == f.saves
                 && r.end.out.body == out.response.body && r.end.out.contentType == out.response.contentType
                 && r.end.out.status == (if out.response.status.Some? then out.response.status else f.status)
               else
                 && r.end.Continue? && r.end.w == Consulted(env, w, key, policy)
                 && Stores(env, s, c, last, f.(saves := f.saves + [PendingSave(key, policy.ttl, out.Refresh?)],
                                               lookups := f.lookups + [LookupEvent(key, policy.ttl, out)]),
                           input, value, folded, r.end.frame)
  {
    PreparedPlan(env, s, idx, rest, f, w, c);
    var e := CacheLookup(env, Some(StepId(s, idx)), c.config, c.input, w);
    var base := f.(saves := f.saves + e.saves, lookups := f.lookups + e.lookups);
    assert Prepared(env, s, base, w, c);
    hide *;
    LookupMade(env, Some(StepId(s, idx)), c.config, c.input, w);
    CacheDriven(env, fuel, s, idx, rest, f, w, c);
    value, folded := ResultStored(env, s, rest, base, w, c, Response(c.input, "application/json", None), e.w);
    HitReturned(env, PendingOf(env, s, rest, base, w, c), Response(c.input, "application/json", None), e.hit, e.w);
    assert f.saves + [] == f.saves && f.lookups + [] == f.lookups;
  }

  lemma CacheDriven(env: Env, fuel: nat, s: Step, idx: nat, rest: seq<Step>, f: Frame, w: World, c: Setup)
    requires s.Regular? && Prepared(env, s, f, w, c) && c.name == "cache" && "cache" in env.behaviors
    ensures var e := CacheLookup(env, Some(StepId(s, idx)), c.config, c.input, w);
            var base := f.(saves := f.saves + e.saves, lookups := f.lookups + e.lookups);
            Drive(env, fuel, PlanStep(env, s, idx, rest, f, w))
              == Ended(FinishRegular(env, PendingOf(env, s, rest, base, w, c),
                                     Response(c.input, "application/json", None), e.hit, e.w))
  {
    PreparedPlan(env, s, idx, rest, f, w, c);
    hide Prepared, PlanStep, TargetName, IsLast, StepId, CacheLookup, FinishRegular;
  }

  lemma LookupMade(env: Env, stepId: Option<string>, config: string, input: Json, w: World)
    ensures var e := CacheLookup(env, stepId, config, input, w);
            var policy := env.cacheSettings(config);
            var key := env.cacheKey(stepId, config, policy.keyTemplate, input);
            var out := LookupOutcome(env.limits, w.cache, key, env.clock(|w.history|));
            if !policy.enabled then e == CacheEffect(None, [], [], w)
            else
              && e.w == Consulted(env, w, key, policy) && e.lookups == [LookupEvent(key, policy.ttl, out)]
              && (out.Fresh? || out.Stale? ==> e.hit == Some(out.response) && e.saves == [])
              && (out.Miss? || out.Refresh? ==>
                    e.hit == None && e.saves == [PendingSave(key, policy.ttl, out.Refresh?)])
  {
    hide LookupOutcome, LookupCache;
  }

  lemma HitReturned(env: Env, p: Pending, r: Response, hit: Option<Response>, v: World)
    requires p.step.Regular? && r.status == None
    ensures var end := FinishRegular(env, p, r, hit, v);
            hit.Some? ==>
              && end.Return? && end.w == v && end.frame.saves == p.frame.saves
              && end.out == Response(hit.value.body, hit.value.contentType,
                                     if hit.value.status.Some? then hit.value.status else p.frame.status)
  {
    hide ApplyResult, NextContentType, OverrideErrorType;
  }

  // ----- tasks -----

  /** A task sees nothing of the request but what lies outside of it; it shares the cache. */
  function Detached(w: World): World {
    World(Shared(map[], map[], map[], None, Null, w.shared.outside), map[], w.cache, w.history)
  }

  /** The task's outcome is registered under its name; of its world, what lies outside and the cache stay. */
  function Joinable(w: World, name: string, t: Task, u: World): World {
    World(w.shared.(outside := u.shared.outside), w.tasks[name := t], u.cache, u.history)
  }

  /** What a task starts from. */
  predicate PreparedTask(env: Env, s: Step, f: Frame, w: World, c: Setup)
    requires s.Regular?
  {
    && Runs(s.condition, env, w.shared, f.state) && ConditionArgument(s.condition, "async") == c.target != None
    && exists text | text in [s.name, s.config] ::
         Calls(env, s, c.name, text) && Given(env, s, c.name, text, f.state, c.config, c.input, c.auto)
  }

  lemma TaskPlan(env: Env, s: Step, idx: nat, rest: seq<Step>, f: Frame, w: World, c: Setup)
    requires s.Regular? && PreparedTask(env, s, f, w, c)
    ensures PlanStep(env, s, idx, rest, f, w)
         == Fork(c.target.value,
                 if c.name == "pipeline" then
                   match ResolveNamed(env, s.loc, Trim(c.config))
                   case None => JobFailed(WithLocation(PipelineNotFound(Trim(c.config)), s.loc))
                   case Some(pipeline) =>
                     match CallInput(env, s.args, c.input)
                     case Err(e) => JobFailed(WithLocation(e, s.loc))
                     case Ok(arg) => JobPipeline(pipeline, arg, s.loc)
                 else JobCall(Invocation(c.name, s.args, c.config, None), c.input, s.loc), f, w)
  {
    RunsMeans(s.condition, env, w.shared, f.state);
    hide Runs, ShouldExecute, ConditionArgument, ResolveVariable, ResolveNamed, CallInput, Trim;
    assert ResolveConfig(env, s.loc, c.name, RawConfig(env, s), f.state) == Resolved(c.config, c.input, c.auto);
  }

  /** The task is registered as failed with the text of its located error; `u` is the world it left. */
  predicate TaskFails(s: Step, f: Frame, w: World, name: string, e: WebPipeError, located: WebPipeError, u: World,
                      r: StepResult)
    requires s.Regular?
  {
    LocatedAt(e, s.loc, located) && r == Ended(Continue(f, Joinable(w, name, TaskError(Runtime.Show(located)), u)))
  }

  predicate TaskEnds(f: Frame, w: World, name: string, value: Json, u: World, r: StepResult) {
    r == Ended(Continue(f, Joinable(w, name, TaskValue(value), u)))
  }

  /** A task that is a pipeline runs detached on the passed input; the step itself changes nothing but the registry and
      what the task reaches. */
  lemma {:induction false} PipelineTask(env: Env, fuel: nat, s: Step, idx: nat, rest: seq<Step>, f: Frame, w: World,
                                        c: Setup)
    returns (arg: Json, located: WebPipeError)
    requires s.Regular? && PreparedTask(env, s, f, w, c) && c.name == "pipeline" && fuel > 0
    ensures var r := Drive(env, fuel, PlanStep(env, s, idx, rest, f, w));
            match ResolveNamed(env, s.loc, Trim(c.config))
            case None => TaskFails(s, f, w, c.target.value, PipelineNotFound(Trim(c.config)), located, w, r)
            case Some(p) =>
              if s.args != [] && env.jq(s.args[0], c.input).Err? then
                TaskFails(s, f, w, c.target.value,
                          MiddlewareFailed("pipeline argument evaluation failed: "
                                           + env.jq(s.args[0], c.input).error), located, w, r)
              else
                && Passes(env, s.args, c.input, arg)
                && match RunPipeline(env, fuel - 1, p, arg, None, Detached(w))
                   case Stuck => r.OutOfFuel?
                   case Failed(e, u) => TaskFails(s, f, w, c.target.value, e, located, u, r)
                   case Value(out, u) => TaskEnds(f, w, c.target.value, out.body, u, r)
  {
    TaskPlan(env, s, idx, rest, f, w, c);
    ArgumentPassed(env, s.args, c.input);
    arg, located := Null, OtherError("");
    hide PreparedTask, PlanStep, ResolveNamed, Trim, CallInput, Passes, RunPipeline, LocatedAt, Runtime.Show;
    match ResolveNamed(env, s.loc, Trim(c.config))
    case None =>
      located := WithLocation(PipelineNotFound(Trim(c.config)), s.loc);
      ErrorLocated(PipelineNotFound(Trim(c.config)), s.loc);
      hide WithLocation;
    case Some(p) =>
      match CallInput(env, s.args, c.input)
      case Err(e) =>
        located := WithLocation(e, s.loc);
        ErrorLocated(e, s.loc);
        hide WithLocation;
      case Ok(a) =>
        arg := a;
        match RunPipeline(env, fuel - 1, p, arg, None, Detached(w))
        case Failed(e, u) =>
          located := WithLocation(e, s.loc);
          ErrorLocated(e, s.loc);
          hide WithLocation;
        case _ =>
  }

  /** A task that is a middleware call is made detached and without a target. */
  lemma {:induction false} MiddlewareTask(env: Env, fuel: nat, s: Step, idx: nat, rest: seq<Step>, f: Frame, w: World,
                                          c: Setup)
    returns (located: WebPipeError)
    requires s.Regular? && PreparedTask(env, s, f, w, c)
    requires c.name != "pipeline" && !(c.name == "cache" && "cache" in env.behaviors)
    ensures var r := Drive(env, fuel, PlanStep(env, s, idx, rest, f, w));
            var d := Detached(w);
            match env.invoke(Invocation(c.name, s.args, c.config, None), c.input, d.shared)
            case MiddlewareErr(e, shared) => TaskFails(s, f, w, c.target.value, e, located, d.(shared := shared), r)
            case MiddlewareOk(v, _, shared) => TaskEnds(f, w, c.target.value, v, d.(shared := shared), r)
  {
    TaskPlan(env, s, idx, rest, f, w, c);
    CallDriven(env, fuel, c.target.value, Invocation(c.name, s.args, c.config, None), c.input, s.loc, f, w);
    located := OtherError("");
    hide LocatedAt, WithLocation, PlanStep, Drive, Detached, Joinable, PreparedTask, Runtime.Show;
    match env.invoke(Invocation(c.name, s.args, c.config, None), c.input, Detached(w).shared)
    case MiddlewareErr(e, shared) =>
      located := WithLocation(e, s.loc);
      ErrorLocated(e, s.loc);
    case MiddlewareOk(v, _, shared) =>
  }

  lemma CallDriven(env: Env, fuel: nat, name: string, call: Invocation, input: Json, loc: Location, f: Frame, w: World)
    requires !(call.name == "cache" && "cache" in env.behaviors)
    ensures var d := Detached(w);
            Drive(env, fuel, Fork(name, JobCall(call, input, loc), f, w)) ==
            match env.invoke(call, input, d.shared)
            case MiddlewareErr(e, shared) =>
              Ended(Continue(f, Joinable(w, name, TaskError(Runtime.Show(WithLocation(e, loc))), d.(shared := shared))))
            case MiddlewareOk(v, _, shared) =>
              Ended(Continue(f, Joinable(w, name, TaskValue(v), d.(shared := shared))))
  {
    hide Runtime.Show, WithLocation;
  }

  /** A task that is a cache step consults the cache without a step's identity and hands its input back; it notes no
      save. */
  lemma CacheTask(env: Env, fuel: nat, s: Step, idx: nat, rest: seq<Step>, f: Frame, w: World, c: Setup)
    requires s.Regular? && PreparedTask(env, s, f, w, c) && c.name == "cache" && "cache" in env.behaviors
    ensures var policy := env.cacheSettings(c.config);
            var key := env.cacheKey(None, c.config, policy.keyTemplate, c.input);
            var u := if policy.enabled then Consulted(env, Detached(w), key, policy) else Detached(w);
            Drive(env, fuel, PlanStep(env, s, idx, rest, f, w))
              == Ended(Continue(f, Joinable(w, c.target.value, TaskValue(c.input), u)))
  {
    TaskPlan(env, s, idx, rest, f, w, c);
    LookupMade(env, None, c.config, c.input, Detached(w));
    hide PreparedTask, PlanStep, ResolveNamed, Trim, CallInput, CacheLookup, Consulted, LookupOutcome;
  }
}

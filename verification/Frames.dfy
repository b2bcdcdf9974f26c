/** What a step does to the bookkeeping of its own run: the error type being handled stays, and the pending
    saves are exactly the run's own lookups that missed or won a refresh, in order. */
module Frames {
  import opened Base
  import opened JsonValues
  import opened Ast
  import opened Responses
  import opened Runtime
  import opened Steps
  import opened Interpreter

  function SaveFor(e: LookupEvent): seq<PendingSave> {
    match e.outcome
    case Refresh(_) => [PendingSave(e.key, e.ttl, true)]
    case Miss => [PendingSave(e.key, e.ttl, false)]
    case _ => []
  }

  /** One save per lookup that did not produce a response, in order. */
  function SavesFor(lookups: seq<LookupEvent>): seq<PendingSave> {
    if lookups == [] then [] else SavesFor(lookups[..|lookups| - 1]) + SaveFor(lookups[|lookups| - 1])
  }

  predicate Registered(f: Frame) { f.saves == SavesFor(f.lookups) }

  /** `g` continues `f` within one run. */
  predicate Follows(f: Frame, g: Frame) {
    && g.handled == f.handled
    && f.lookups <= g.lookups
    && (Registered(f) ==> Registered(g))
  }

  function KontFrame(k: Kont): Frame {
    match k
    case KNamed(p) => p.frame
    case KIf(_, _, f) => f
    case KBranch(f) => f
    case KForeach(_, _, _, _, f) => f
    case KResult(_, _, f) => f
  }

  predicate EndFollows(f: Frame, end: StepEnd) {
    match end
    case Continue(g, _) => Follows(f, g)
    case Return(_, g, _) => Follows(f, g)
    case Raised(_, _) => true
  }

  predicate PlanFollows(f: Frame, p: Plan) {
    match p
    case Done(end) => EndFollows(f, end)
    case Call(_, _, _, k, _) => Follows(f, KontFrame(k))
    case Fork(_, _, g, _) => Follows(f, g)
    case Gather(_, _, pending, _) => Follows(f, pending.frame)
  }

  lemma RegularFollows(env: Env, p: Pending, r: Response, hit: Option<Response>, w: World)
    requires p.step.Regular?
    ensures EndFollows(p.frame, FinishRegular(env, p, r, hit, w))
  {
  }

  lemma RecoverFollows(s: Step, f: Frame, e: WebPipeError, w: World)
    requires s.Regular?
    ensures EndFollows(f, Recover(s, f, e, w))
  {
  }

  lemma StandardFollows(env: Env, p: Pending, idx: nat, config: string, input: Json, w: World)
    requires p.step.Regular?
    ensures EndFollows(p.frame, PlanStandard(env, p, idx, config, input, w))
  {
    if IsCache(env, p.name) {
      var e := CacheLookup(env, Some(StepId(p.step, idx)), config, input, w);
      var f := p.frame.(saves := p.frame.saves + e.saves, lookups := p.frame.lookups + e.lookups);
      CacheRegisters(env, Some(StepId(p.step, idx)), config, input, w, p.frame);
      RegularFollows(env, p.(frame := f), Response(input, JSON_TYPE, None), e.hit, e.w);
    } else {
      var out := env.invoke(Invocation(p.name, p.step.args, config, p.target.name), input, w.shared);
      if out.MiddlewareErr? {
        RecoverFollows(p.step, p.frame, out.error, w.(shared := out.shared));
      } else {
        RegularFollows(env, p, Response(out.state, if out.contentType.Some? then out.contentType.value else JSON_TYPE,
                                        None),
                       None, w.(shared := out.shared));
      }
    }
  }

  lemma CacheRegisters(env: Env, stepId: Option<string>, config: string, input: Json, w: World, f: Frame)
    ensures var e := CacheLookup(env, stepId, config, input, w);
            Follows(f, f.(saves := f.saves + e.saves, lookups := f.lookups + e.lookups))
  {
    var e := CacheLookup(env, stepId, config, input, w);
    if e.lookups != [] {
      assert (f.lookups + e.lookups)[..|f.lookups + e.lookups| - 1] == f.lookups;
      assert e.saves == SaveFor(e.lookups[0]);
    } else {
      assert f.lookups + e.lookups == f.lookups && f.saves + e.saves == f.saves;
    }
  }

  lemma JoinFollows(env: Env, p: Pending, config: string, input: Json, w: World)
    requires p.step.Regular?
    ensures PlanFollows(p.frame, PlanJoin(env, p, config, input, w))
  {
    var names := JoinNames(env, p.step, config);
    if names.Err? { RecoverFollows(p.step, p.frame, names.error, w); }
  }

  lemma NamedFollows(env: Env, p: Pending, config: string, input: Json, w: World)
    requires p.step.Regular?
    ensures PlanFollows(p.frame, PlanNamed(env, p, config, input, w))
  {
    RecoverFollows(p.step, p.frame, PipelineNotFound(Trim(config)), w);
    var arg := CallInput(env, p.step.args, input);
    if arg.Err? { RecoverFollows(p.step, p.frame, arg.error, w); }
  }

  lemma PlanRegularFollows(env: Env, s: Step, idx: nat, rest: seq<Step>, f: Frame, w: World)
    requires s.Regular?
    ensures PlanFollows(f, PlanRegular(env, s, idx, rest, f, w))
  {
    hide PlanStandard, PlanJoin, PlanNamed, PlanJob, LogCall;
    if ShouldExecute(s.condition, env, w.shared, f.state) && ConditionArgument(s.condition, "async").None? {
      var name := EffectiveName(env, s);
      var r := ResolveConfig(env, s.loc, name, RawConfig(env, s), f.state);
      var w1 := if name == "pipeline" then LogCall(w, r.config, r.input) else w;
      var f1 := if r.autoNamed then f.(state := r.input) else f;
      var p := Pending(s, name, TargetName(s.condition, f1.state, r.autoNamed), IsLast(rest, env, w.shared, f.state),
                       f1);
      assert Follows(f, f1);
      if name == "join" { JoinFollows(env, p, r.config, r.input, w1); }
      else if name == "pipeline" { NamedFollows(env, p, r.config, r.input, w1); }
      else { StandardFollows(env, p, idx, r.config, r.input, w1); }
    }
  }

  /** Every step continues its run. */
  lemma StepFollows(env: Env, s: Step, idx: nat, rest: seq<Step>, f: Frame, w: World)
    ensures PlanFollows(f, PlanStep(env, s, idx, rest, f, w))
  {
    if s.Regular? { PlanRegularFollows(env, s, idx, rest, f, w); }
  }

  lemma FinishFollows(env: Env, k: Kont, r: Run)
    requires !r.Stuck? && WellFormed(k)
    ensures PlanFollows(KontFrame(k), Finish(env, k, r))
  {
    if k.KNamed? {
      if r.Failed? { RecoverFollows(k.pending.step, k.pending.frame, r.error, r.w); }
      else { RegularFollows(env, k.pending, r.out, None, r.w); }
    }
  }

  lemma {:induction false} DriveFollows(env: Env, fuel: nat, p: Plan, f: Frame)
    requires Sound(p) && PlanFollows(f, p)
    ensures var r := Drive(env, fuel, p); r.Ended? ==> EndFollows(f, r.end)
    decreases Rank(p)
  {
    match p
    case Call(pipeline, input, h, k, w) =>
      if fuel > 0 {
        var r := RunPipeline(env, fuel - 1, pipeline, input, h, w);
        if !r.Stuck? {
          FinishFollows(env, k, r);
          DriveFollows(env, fuel, Finish(env, k, r), f);
        }
      }
    case Gather(names, input, pending, w) =>
      var w1 := w.(tasks := Remaining(names, w.tasks));
      RegularFollows(env, pending, Response(Insert(input, "async", Object(Collect(names, w.tasks))), JSON_TYPE, None),
                     None, w1);
    case _ =>
  }

  /** A whole loop continues its run. */
  lemma {:induction false} LoopFollows(env: Env, fuel: nat, steps: seq<Step>, idx: nat, f: Frame, w: World)
    requires Registered(f)
    ensures var end := Loop(env, fuel, steps, idx, f, w);
            end.LoopDone? ==> Registered(end.frame) && f.lookups <= end.frame.lookups
    decreases |steps|
  {
    hide PlanStep, Drive;
    if steps != [] {
      var g := Recheck(f);
      if Skips(steps[0], g) {
        LoopFollows(env, fuel, steps[1..], idx + 1, g, w);
      } else {
        var plan := PlanStep(env, steps[0], idx, steps[1..], g, w);
        StepFollows(env, steps[0], idx, steps[1..], g, w);
        DriveFollows(env, fuel, plan, g);
        var r := Drive(env, fuel, plan);
        if r.Ended? && r.end.Continue? { LoopFollows(env, fuel, steps[1..], idx + 1, r.end.frame, r.end.w); }
      }
    }
  }
}

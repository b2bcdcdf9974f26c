/** The static analysis that decides whether a route needs its feature flags evaluated, and why leaving the
    flags out is safe when it says no. */
module FlagAnalysis {
  import opened Base
  import opened JsonValues
  import opened Tags
  import opened Ast
  import opened Responses
  import opened Runtime
  import opened Steps
  import opened Interpreter
  import opened Settlement
  import opened Footprints

  // ----- the analysis -----

  /** The pipeline a step refers to, looked up literally. */
  function ReferencedPipeline(env: Env, s: Step): Option<Pipeline>
    requires s.Regular?
  {
    var target := Trim(if s.name == "pipeline" then s.config else s.name);
    var local := ValueAt(env.named, PipelineKey(s.loc.moduleId, target));
    if local.None? && s.loc.moduleId.Some? then ValueAt(env.named, PipelineKey(None, target)) else local
  }

  function Then(first: Option<bool>, second: Option<bool>): Option<bool> {
    if first == Some(false) then second else first
  }

  /** `None` when following references exceeds the bound: the analysis keeps no visited set. */
  function NeedsFlags(env: Env, fuel: nat, steps: seq<Step>): Option<bool>
    decreases fuel, steps
  {
    if steps == [] then Some(false) else Then(StepNeedsFlags(env, fuel, steps[0]), NeedsFlags(env, fuel, steps[1..]))
  }

  function StepNeedsFlags(env: Env, fuel: nat, s: Step): Option<bool>
    decreases fuel, s
  {
    match s
    case Regular(name, _, _, configPresent, condition, _, _) =>
      if condition.Some? && (HasFlag(condition.value) || HasNeedsFlags(condition.value)) then Some(true)
      else if name == "pipeline" || (!configPresent && name != "loader" && name !in env.behaviors) then
        match ReferencedPipeline(env, s)
        case None => Some(false)
        case Some(p) => if fuel == 0 then None else NeedsFlags(env, fuel - 1, p.steps)
      else Some(false)
    case Result(branches, _) => ResultsNeedFlags(env, fuel, branches)
    case If(test, thenBranch, elseBranch, _) =>
      Then(NeedsFlags(env, fuel, test.steps),
           Then(NeedsFlags(env, fuel, thenBranch.steps),
                if elseBranch.Some? then NeedsFlags(env, fuel, elseBranch.value.steps) else Some(false)))
    case Dispatch(cases, default, _) =>
      Then(CasesNeedFlags(env, fuel, cases),
           if default.Some? then NeedsFlags(env, fuel, default.value.steps) else Some(false))
    case Foreach(_, body, _) => NeedsFlags(env, fuel, body.steps)
  }

  function ResultsNeedFlags(env: Env, fuel: nat, branches: seq<ResultBranch>): Option<bool>
    decreases fuel, branches
  {
    if branches == [] then Some(false)
    else
      assert branches[0].pipeline < branches[0];
      Then(NeedsFlags(env, fuel, branches[0].pipeline.steps), ResultsNeedFlags(env, fuel, branches[1..]))
  }

  function CasesNeedFlags(env: Env, fuel: nat, cases: seq<DispatchBranch>): Option<bool>
    decreases fuel, cases
  {
    if cases == [] then Some(false)
    else if HasFlag(cases[0].condition) then Some(true)
    else
      assert cases[0].pipeline < cases[0];
      Then(NeedsFlags(env, fuel, cases[0].pipeline.steps), CasesNeedFlags(env, fuel, cases[1..]))
  }

  // ----- what is asked of the steps that the analysis visits -----

  /** The pipeline the analysis follows from a step. */
  function LiteralTarget(env: Env, s: Step): Option<Pipeline> {
    if s.Regular? && EffectiveName(env, s) == "pipeline" then ReferencedPipeline(env, s) else None
  }

  /** No scoped reference, and no variable standing for a pipeline name. */
  predicate PlainRef(env: Env, s: Step)
    requires s.Regular?
  {
    EffectiveName(env, s) == "pipeline" ==>
      && ParseScopedRef(Trim(RawConfig(env, s))).alias.None?
      && ResolveVariable(env, s.loc, "pipeline", RawConfig(env, s)).None?
  }

  /** The runtime resolves a plain reference to the pipeline the analysis looked at. */
  lemma PlainResolution(env: Env, s: Step)
    requires s.Regular? && PlainRef(env, s)
    ensures RuntimeTarget(env, s) == LiteralTarget(env, s)
  {
    hide Trim;
  }

  predicate SharedSim(a: Shared, b: Shared) { b == a.(flags := b.flags) }

  predicate ResultSim(a: MiddlewareResult, b: MiddlewareResult) {
    SharedSim(a.shared, b.shared) && b == a.(shared := b.shared)
  }

  /** The call neither reads the flags nor lets them influence anything else; it may set them. */
  ghost predicate BlindCall(env: Env, call: Invocation) {
    forall state, a, b :: SharedSim(a, b) ==> ResultSim(env.invoke(call, state, a), env.invoke(call, state, b))
  }

  /** The step itself calls a middleware other than the cache. */
  predicate Calls(env: Env, s: Step)
    requires s.Regular?
  {
    var name := EffectiveName(env, s);
    name != "pipeline" && name != "join" && !IsCache(env, name)
  }

  /** A plain reference, or a blind call. Tasks start without flags, so nothing is asked of them. */
  ghost predicate InnocentStep(env: Env, s: Step) {
    s.Regular? && !IsTask(s) ==>
      && PlainRef(env, s)
      && (Calls(env, s) ==>
            forall target :: BlindCall(env, Invocation(EffectiveName(env, s), s.args, StepConfig(env, s), target)))
  }

  ghost predicate Innocent(env: Env, steps: seq<Step>) {
    Throughout(s => if IsTask(s) then None else LiteralTarget(env, s), s => InnocentStep(env, s), steps)
  }

  // ----- clean pipelines -----

  /** The analysis says no, and what it visits is innocent. */
  ghost predicate Clean(env: Env, steps: seq<Step>) {
    Innocent(env, steps) && exists n: nat :: NeedsFlags(env, n, steps) == Some(false)
  }

  /** Conditions the step itself evaluates. */
  predicate FlagFree(s: Step) {
    match s
    case Regular(_, _, _, _, condition, _, _) => condition.Some? ==> !HasFlag(condition.value)
    case Dispatch(cases, _, _) => forall i :: 0 <= i < |cases| ==> !HasFlag(cases[i].condition)
    case _ => true
  }

  /** Everything a step may run is clean. */
  ghost predicate CleanStep(env: Env, s: Step) {
    && FlagFree(s) && InnocentStep(env, s)
    && (!IsTask(s) && LiteralTarget(env, s).Some? ==> Clean(env, LiteralTarget(env, s).value.steps))
    && forall p :: p in Parts(s) ==> Clean(env, p.steps)
  }

  lemma {:induction false} CleanResults(env: Env, n: nat, branches: seq<ResultBranch>, i: nat)
    requires ResultsNeedFlags(env, n, branches) == Some(false) && i < |branches|
    ensures NeedsFlags(env, n, branches[i].pipeline.steps) == Some(false)
    decreases |branches|
  {
    if i > 0 { CleanResults(env, n, branches[1..], i - 1); }
  }

  lemma {:induction false} CleanCases(env: Env, n: nat, cases: seq<DispatchBranch>, i: nat)
    requires CasesNeedFlags(env, n, cases) == Some(false) && i < |cases|
    ensures NeedsFlags(env, n, cases[i].pipeline.steps) == Some(false) && !HasFlag(cases[i].condition)
    decreases |cases|
  {
    if i > 0 { CleanCases(env, n, cases[1..], i - 1); }
  }

  /** A step of which the analysis says no: so it does of its parts and of what it follows. */
  lemma StepSaysNo(env: Env, n: nat, s: Step)
    requires StepNeedsFlags(env, n, s) == Some(false)
    ensures FlagFree(s)
    ensures forall p :: p in Parts(s) ==> NeedsFlags(env, n, p.steps) == Some(false)
    ensures LiteralTarget(env, s).Some? ==>
        n > 0 && NeedsFlags(env, n - 1, LiteralTarget(env, s).value.steps) == Some(false)
  {
    hide NeedsFlags, ReferencedPipeline;
    match s
    case Result(branches, _) =>
      forall i | 0 <= i < |branches| ensures NeedsFlags(env, n, branches[i].pipeline.steps) == Some(false) {
        CleanResults(env, n, branches, i);
      }
    case Dispatch(cases, default, _) =>
      forall i | 0 <= i < |cases|
        ensures NeedsFlags(env, n, cases[i].pipeline.steps) == Some(false) && !HasFlag(cases[i].condition)
      {
        CleanCases(env, n, cases, i);
      }
    case _ =>
  }

  lemma {:induction false} StepsSayNo(env: Env, n: nat, steps: seq<Step>, i: nat)
    requires NeedsFlags(env, n, steps) == Some(false) && i < |steps|
    ensures StepNeedsFlags(env, n, steps[i]) == Some(false)
    decreases |steps|
  {
    hide StepNeedsFlags;
    if i > 0 { StepsSayNo(env, n, steps[1..], i - 1); }
  }

  ghost predicate CleanList(env: Env, steps: seq<Step>) {
    forall i :: 0 <= i < |steps| ==> CleanStep(env, steps[i])
  }

  lemma CleanIsCleanList(env: Env, steps: seq<Step>)
    requires Clean(env, steps)
    ensures CleanList(env, steps)
  {
    hide NeedsFlags, StepNeedsFlags, LiteralTarget, Parts, InnocentStep, FlagFree, Throughout;
    var n :| NeedsFlags(env, n, steps) == Some(false);
    forall i | 0 <= i < |steps| ensures CleanStep(env, steps[i]) {
      StepsSayNo(env, n, steps, i);
      StepSaysNo(env, n, steps[i]);
      ThroughoutStep(s => if IsTask(s) then None else LiteralTarget(env, s), s => InnocentStep(env, s), steps, i);
    }
  }

  // ----- two runs that differ only in their flags -----

  predicate Sim(v: World, w: World) { SharedSim(v.shared, w.shared) && w == v.(shared := w.shared) }

  function EndInWorld(end: StepEnd, w: World): StepEnd {
    match end
    case Continue(f, _) => Continue(f, w)
    case Return(out, f, _) => Return(out, f, w)
    case Raised(e, _) => Raised(e, w)
  }

  predicate EndSim(a: StepEnd, b: StepEnd) {
    Sim(EndWorld(a), EndWorld(b)) && b == EndInWorld(a, EndWorld(b))
  }

  predicate PlanSim(a: Plan, b: Plan) {
    match a
    case Done(end) => b.Done? && EndSim(end, b.end)
    case Call(p, input, h, k, w) => b.Call? && Sim(w, b.w) && b == Call(p, input, h, k, b.w)
    case Fork(name, job, f, w) => b.Fork? && Sim(w, b.w) && b == Fork(name, job, f, b.w)
    case Gather(names, input, p, w) => b.Gather? && Sim(w, b.w) && b == Gather(names, input, p, b.w)
  }

  predicate RunSim(a: Run, b: Run) {
    match a
    case Stuck => b.Stuck?
    case Failed(e, w) => b.Failed? && Sim(w, b.w) && b == Failed(e, b.w)
    case Value(out, w) => b.Value? && Sim(w, b.w) && b == Value(out, b.w)
  }

  lemma ConditionSim(env: Env, condition: Option<TagExpr>, a: Shared, b: Shared, state: Json)
    requires SharedSim(a, b) && (condition.Some? ==> !HasFlag(condition.value))
    ensures ShouldExecute(condition, env, a, state) == ShouldExecute(condition, env, b, state)
  {
    if condition.Some? {
      FlagFreeCondition(condition.value, Context(env, a), b.flags, state);
      assert Context(env, b) == Context(env, a).(flags := b.flags);
    }
  }

  lemma LookaheadSim(env: Env, rest: seq<Step>, a: Shared, b: Shared, state: Json)
    requires SharedSim(a, b) && forall i :: 0 <= i < |rest| ==> FlagFree(rest[i])
    ensures IsLast(rest, env, a, state) == IsLast(rest, env, b, state)
  {
    forall i | 0 <= i < |rest| && rest[i].Regular?
      ensures ShouldExecute(rest[i].condition, env, a, state) == ShouldExecute(rest[i].condition, env, b, state)
    {
      ConditionSim(env, rest[i].condition, a, b, state);
    }
  }

  lemma LookupSim(env: Env, stepId: Option<string>, config: string, input: Json, v: World, w: World)
    requires Sim(v, w)
    ensures var a := CacheLookup(env, stepId, config, input, v);
            var b := CacheLookup(env, stepId, config, input, w);
            Sim(a.w, b.w) && b == a.(w := b.w)
  {
    hide LookupOutcome, Apply;
  }

  lemma StandardSim(env: Env, p: Pending, idx: nat, config: string, input: Json, v: World, w: World)
    requires p.step.Regular? && Sim(v, w)
    requires IsCache(env, p.name) || BlindCall(env, Invocation(p.name, p.step.args, config, p.target.name))
    ensures EndSim(PlanStandard(env, p, idx, config, input, v), PlanStandard(env, p, idx, config, input, w))
  {
    hide CacheLookup, ApplyResult, NextContentType, MiddlewareFailure, MiddlewareErrorValue, OverrideErrorType;
    if IsCache(env, p.name) {
      LookupSim(env, Some(StepId(p.step, idx)), config, input, v, w);
    } else {
      var call := Invocation(p.name, p.step.args, config, p.target.name);
      assert ResultSim(env.invoke(call, input, v.shared), env.invoke(call, input, w.shared));
    }
  }

  lemma JoinSim(env: Env, p: Pending, config: string, input: Json, v: World, w: World)
    requires p.step.Regular? && Sim(v, w)
    ensures PlanSim(PlanJoin(env, p, config, input, v), PlanJoin(env, p, config, input, w))
  {
    hide JoinNames, MiddlewareFailure, MiddlewareErrorValue, OverrideErrorType;
  }

  lemma NamedSim(env: Env, p: Pending, config: string, input: Json, v: World, w: World)
    requires p.step.Regular? && Sim(v, w)
    ensures PlanSim(PlanNamed(env, p, config, input, v), PlanNamed(env, p, config, input, w))
  {
    hide ResolveNamed, CallInput, MiddlewareFailure, MiddlewareErrorValue, OverrideErrorType;
  }

  lemma RegularSim(env: Env, s: Step, idx: nat, rest: seq<Step>, f: Frame, v: World, w: World)
    requires s.Regular? && FlagFree(s) && (forall i :: 0 <= i < |rest| ==> FlagFree(rest[i]))
    requires InnocentStep(env, s) && Sim(v, w)
    ensures PlanSim(PlanRegular(env, s, idx, rest, f, v), PlanRegular(env, s, idx, rest, f, w))
  {
    ConfigFixed(env, s, f.state);
    hide PlanStandard, PlanJoin, PlanNamed, PlanJob, ShouldExecute, IsLast, ResolveConfig, TargetName, StepConfig,
         PlainRef,
         BlindCall;
    ConditionSim(env, s.condition, v.shared, w.shared, f.state);
    LookaheadSim(env, rest, v.shared, w.shared, f.state);
    if ShouldExecute(s.condition, env, v.shared, f.state) && ConditionArgument(s.condition, "async").None? {
      var name := EffectiveName(env, s);
      var r := ResolveConfig(env, s.loc, name, RawConfig(env, s), f.state);
      var v1 := if name == "pipeline" then LogCall(v, r.config, r.input) else v;
      var w1 := if name == "pipeline" then LogCall(w, r.config, r.input) else w;
      var f1 := if r.autoNamed then f.(state := r.input) else f;
      var p := Pending(s, name, TargetName(s.condition, f1.state, r.autoNamed), IsLast(rest, env, v.shared, f.state),
                       f1);
      if name == "join" { JoinSim(env, p, r.config, r.input, v1, w1); }
      else if name == "pipeline" { NamedSim(env, p, r.config, r.input, v1, w1); }
      else { StandardSim(env, p, idx, r.config, r.input, v1, w1); }
    }
  }

  lemma {:induction false} SelectSim(env: Env, cases: seq<DispatchBranch>, default: Option<Pipeline>, a: Shared,
                                     b: Shared, state: Json)
    requires SharedSim(a, b) && forall i :: 0 <= i < |cases| ==> !HasFlag(cases[i].condition)
    ensures SelectCase(cases, default, env, a, state) == SelectCase(cases, default, env, b, state)
    ensures var p := SelectCase(cases, default, env, a, state);
            p.Some? ==> p == default || exists i :: 0 <= i < |cases| && cases[i].pipeline == p.value
    decreases |cases|
  {
    if cases != [] {
      ConditionSim(env, Some(cases[0].condition), a, b, state);
      SelectSim(env, cases[1..], default, a, b, state);
      var p := SelectCase(cases[1..], default, env, a, state);
      if p.Some? && p != default {
        var i :| 0 <= i < |cases[1..]| && cases[1..][i].pipeline == p.value;
        assert cases[i + 1].pipeline == p.value;
      }
    }
  }

  lemma StepSim(env: Env, s: Step, idx: nat, rest: seq<Step>, f: Frame, v: World, w: World)
    requires FlagFree(s) && (forall i :: 0 <= i < |rest| ==> FlagFree(rest[i]))
    requires InnocentStep(env, s) && Sim(v, w)
    ensures PlanSim(PlanStep(env, s, idx, rest, f, v), PlanStep(env, s, idx, rest, f, w))
  {
    hide PlanRegular, SelectBranch, GetPath, SetPath;
    match s
    case Regular(_, _, _, _, _, _, _) => RegularSim(env, s, idx, rest, f, v, w);
    case Dispatch(cases, default, _) => SelectSim(env, cases, default, v.shared, w.shared, f.state);
    case _ =>
  }

  lemma FinishSim(env: Env, k: Kont, a: Run, b: Run)
    requires WellFormed(k) && !a.Stuck? && RunSim(a, b)
    ensures PlanSim(Finish(env, k, a), Finish(env, k, b))
  {
    hide ApplyResult, NextContentType, MiddlewareFailure, MiddlewareErrorValue, OverrideErrorType, SetPath;
  }

  // ----- plans only run clean pipelines -----

  ghost predicate CleanKont(env: Env, k: Kont) { forall p :: p in KontParts(k) ==> Clean(env, p.steps) }

  ghost predicate CleanPlan(env: Env, p: Plan) {
    p.Call? ==> Clean(env, p.pipeline.steps) && CleanKont(env, p.kont)
  }

  lemma StepPlanClean(env: Env, s: Step, idx: nat, rest: seq<Step>, f: Frame, w: World)
    requires CleanStep(env, s)
    ensures CleanPlan(env, PlanStep(env, s, idx, rest, f, w))
  {
    hide PlanStep, Clean, Parts, KontParts, RuntimeTarget, LiteralTarget, PlainRef, FlagFree;
    StepStems(env, s, idx, rest, f, w);
    if s.Regular? && !IsTask(s) { PlainResolution(env, s); }
    TargetsRegular(env, s);
  }

  lemma TargetsRegular(env: Env, s: Step)
    ensures !s.Regular? ==> RuntimeTarget(env, s) == None
  {
  }

  // ----- the theorem -----

  lemma {:induction false} DriveSim(env: Env, fuel: nat, a: Plan, b: Plan)
    requires Sound(a) && Sound(b) && PlanSim(a, b) && CleanPlan(env, a)
    ensures var x := Drive(env, fuel, a); var y := Drive(env, fuel, b);
            x.OutOfFuel? == y.OutOfFuel? && (x.Ended? ==> EndSim(x.end, y.end))
    decreases fuel, 0, Rank(a)
  {
    hide Finish, Clean, FinishRegular, RunCall;
    match a
    case Call(p, input, h, k, v) =>
      if fuel > 0 {
        RunsAgree(env, fuel - 1, p, input, h, v, b.w);
        var x := RunPipeline(env, fuel - 1, p, input, h, v);
        if !x.Stuck? {
          var y := RunPipeline(env, fuel - 1, p, input, h, b.w);
          FinishSim(env, k, x, y);
          FinishClean(env, k, x);
          DriveSim(env, fuel, Finish(env, k, x), Finish(env, k, y));
        }
      }
    case Fork(_, _, _, v) => assert TaskWorld(v) == TaskWorld(b.w);
    case Gather(names, input, pending, v) =>
      RegularEndSim(env, pending, Response(Insert(input, "async", Object(Collect(names, v.tasks))), JSON_TYPE, None),
                    v.(tasks := Remaining(names, v.tasks)), b.w.(tasks := Remaining(names, b.w.tasks)));
    case Done(_) =>
  }

  lemma RegularEndSim(env: Env, p: Pending, r: Response, v: World, w: World)
    requires p.step.Regular? && Sim(v, w)
    ensures EndSim(FinishRegular(env, p, r, None, v), FinishRegular(env, p, r, None, w))
  {
    hide ApplyResult, NextContentType, OverrideErrorType;
  }

  lemma FinishClean(env: Env, k: Kont, r: Run)
    requires WellFormed(k) && !r.Stuck? && CleanKont(env, k)
    ensures CleanPlan(env, Finish(env, k, r))
  {
    hide Finish, KontParts, Clean;
    FinishStems(env, k, r);
  }

  lemma {:induction false} LoopSim(env: Env, fuel: nat, steps: seq<Step>, idx: nat, f: Frame, v: World, w: World)
    requires CleanList(env, steps) && Sim(v, w)
    ensures var x := Loop(env, fuel, steps, idx, f, v); var y := Loop(env, fuel, steps, idx, f, w);
            match x
            case LoopStuck => y.LoopStuck?
            case LoopRaised(e, v1) => y.LoopRaised? && y.error == e && Sim(v1, y.w)
            case LoopDone(out, g, v1) => y.LoopDone? && y.out == out && y.frame == g && Sim(v1, y.w)
    decreases fuel, 1, |steps|
  {
    hide PlanStep, Drive;
    if steps != [] {
      var g := Recheck(f);
      assert CleanStep(env, steps[0]);
      forall i | 0 <= i < |steps[1..]| ensures CleanStep(env, steps[1..][i]) { assert steps[1..][i] == steps[i + 1]; }
      if Skips(steps[0], g) {
        LoopSim(env, fuel, steps[1..], idx + 1, g, v, w);
      } else {
        var a := PlanStep(env, steps[0], idx, steps[1..], g, v);
        var b := PlanStep(env, steps[0], idx, steps[1..], g, w);
        StepSim(env, steps[0], idx, steps[1..], g, v, w);
        StepPlanClean(env, steps[0], idx, steps[1..], g, v);
        DriveSim(env, fuel, a, b);
        var x := Drive(env, fuel, a);
        if x.Ended? && x.end.Continue? {
          LoopSim(env, fuel, steps[1..], idx + 1, x.end.frame, x.end.w, Drive(env, fuel, b).end.w);
        }
      }
    }
  }

  lemma {:induction false} SettleSim(env: Env, saves: seq<PendingSave>, r: Response, v: World, w: World)
    requires Sim(v, w)
    ensures Sim(Settle(env, saves, r, v), Settle(env, saves, r, w))
    decreases |saves|
  {
    hide Apply, Uncacheable;
    if saves != [] { SettleSim(env, saves[1..], r, SettleOp(env, saves[0], r, v), SettleOp(env, saves[0], r, w)); }
  }

  lemma {:induction false} RunsAgree(env: Env, fuel: nat, p: Pipeline, input: Json, handled: Option<string>, v: World,
                                     w: World)
    requires Clean(env, p.steps) && Sim(v, w)
    ensures RunSim(RunPipeline(env, fuel, p, input, handled, v), RunPipeline(env, fuel, p, input, handled, w))
    decreases fuel, 2, 0
  {
    hide Loop, Clean;
    CleanIsCleanList(env, p.steps);
    LoopSim(env, fuel, p.steps, 0, Start(input, handled), v, w);
    var x := Loop(env, fuel, p.steps, 0, Start(input, handled), v);
    if x.LoopDone? {
      SettleSim(env, x.frame.saves, x.out, x.w, Loop(env, fuel, p.steps, 0, Start(input, handled), w).w);
    }
  }

  /** Flag non-interference. If the analysis of a pipeline ends with no, and the steps it visits, tasks aside, refer
      plainly and make calls that ignore the flags, then runs under any two sets of feature flags give the same state,
      content type, status and error, and leave worlds that differ in nothing but the flags. */
  lemma FlagNonInterference(env: Env, analysisFuel: nat, fuel: nat, p: Pipeline, input: Json, handled: Option<string>,
                            w: World, flags: map<string, bool>)
    requires NeedsFlags(env, analysisFuel, p.steps) == Some(false) && Innocent(env, p.steps)
    ensures RunSim(RunPipeline(env, fuel, p, input, handled, w),
                   RunPipeline(env, fuel, p, input, handled, w.(shared := w.shared.(flags := flags))))
  {
    hide Innocent, RunPipeline;
    RunsAgree(env, fuel, p, input, handled, w, w.(shared := w.shared.(flags := flags)));
  }

  // ----- why references must be plain -----

  const AT: Location := Location(None, 1, 1, 1, Some(0))

  /** A step guarded by a flag, in the imported module. */
  const GUARDED: Step := Regular("say", [], "", true, Some(Single(Tag("flag", false, ["beta"]))), None, AT)

  /** A reference to its pipeline through the import alias. */
  const SCOPED: Step := Regular("pipeline", [], "a::p", true, None, None, AT)

  function WitnessEnv(limits: Limits): Env {
    Env((call, state, shared) => MiddlewareOk(Json.String("on"), None, shared),
        (filter, input) => Err("none"), (filter, input) => None, text => None,
        map["say" := Render], map[PipelineKey(Some(1), "p") := Pipeline([GUARDED])], map[],
        map[0 := ModuleMetadata("main", map["a" := 1])], None,
        config => CachePolicy(false, 0, None), (step, config, template, input) => "", limits, n => n)
  }

  function WitnessWorld(beta: bool): World {
    World(Shared(map["beta" := beta], map[], map[], None, Null, Null), map[], EMPTY, [])
  }

  lemma ScopedNames(limits: Limits)
    ensures Trim("a::p") == "a::p" && ParseScopedRef("a::p") == ScopedRef(Some("a"), "p")
    ensures ResolveNamed(WitnessEnv(limits), AT, "a::p") == Some(Pipeline([GUARDED]))
    ensures ReferencedPipeline(WitnessEnv(limits), SCOPED) == None
  {
    assert TrimStart("a::p") == "a::p" && TrimEnd("a::p") == "a::p";
    assert "a::p"[1..] == "::p";
    assert FindScope("::p") == Some(0);
    assert FindScope("a::p") == Some(1);
    assert "a::p"[..1] == "a" && "a::p"[3..] == "p";
  }

  lemma GuardedRun(limits: Limits, fuel: nat, beta: bool, w: World)
    requires w.shared.flags == map["beta" := beta]
    ensures var r := RunPipeline(WitnessEnv(limits), fuel, Pipeline([GUARDED]), Null, None, w);
            r == Value(Response(if beta then Json.String("on") else Null, JSON_TYPE, None), w)
  {
    hide PlanStep;
    var env := WitnessEnv(limits);
    var f := Start(Null, None);
    assert [GUARDED][1..] == [];
    GuardedPlan(limits, beta, f, w);
    var plan := PlanStep(env, GUARDED, 0, [], f, w);
    assert Loop(env, fuel, [GUARDED], 0, f, w) == Loop(env, fuel, [], 1, plan.end.frame, plan.end.w);
  }

  lemma GuardedPlan(limits: Limits, beta: bool, f: Frame, w: World)
    requires w.shared.flags == map["beta" := beta] && f == Start(Null, None)
    ensures PlanStep(WitnessEnv(limits), GUARDED, 0, [], f, w)
         == Done(Continue(f.(state := if beta then Json.String("on") else Null), w))
  {
    var env := WitnessEnv(limits);
    assert ShouldExecute(GUARDED.condition, env, w.shared, Null) == beta by {
      assert GUARDED.condition.value.tag.args[0] == "beta";
    }
    if beta {
      assert ConditionArgument(GUARDED.condition, "async").None?;
      assert ResolveConfig(env, AT, "say", "", Null) == Resolved("", Null, false);
      var p := Pending(GUARDED, "say", Target(None, false), true, f);
      assert PlanStandard(env, p, 0, "", Null, w) == Continue(f.(state := Json.String("on")), w);
    }
  }

  const CALLER: Pending := Pending(SCOPED, "pipeline", Target(None, false), true, Start(Null, None))

  lemma ScopedPlan(limits: Limits, w: World)
    ensures PlanStep(WitnessEnv(limits), SCOPED, 0, [], Start(Null, None), w)
         == Call(Pipeline([GUARDED]), Null, None, KNamed(CALLER), LogCall(w, "a::p", Null))
  {
    hide ResolveNamed, LogCall, Trim, ParseScopedRef;
    ScopedNames(limits);
    var env := WitnessEnv(limits);
    assert ResolveConfig(env, AT, "pipeline", "a::p", Null) == Resolved("a::p", Null, false);
    assert PlanNamed(env, CALLER, "a::p", Null, LogCall(w, "a::p", Null))
        == Call(Pipeline([GUARDED]), Null, None, KNamed(CALLER), LogCall(w, "a::p", Null));
  }

  lemma ScopedRun(limits: Limits, beta: bool)
    ensures var r := RunPipeline(WitnessEnv(limits), 1, Pipeline([SCOPED]), Null, None, WitnessWorld(beta));
            r.Value? && r.out.body == if beta then Json.String("on") else Null
  {
    hide PlanStep, LogCall;
    var env := WitnessEnv(limits);
    var w := WitnessWorld(beta);
    var logged := LogCall(w, "a::p", Null);
    ScopedPlan(limits, w);
    LoggedFlags(w);
    GuardedRun(limits, 0, beta, logged);
    var plan := PlanStep(env, SCOPED, 0, [], Start(Null, None), w);
    var inner := RunPipeline(env, 0, Pipeline([GUARDED]), Null, None, logged);
    var f := Start(Null, None).(state := if beta then Json.String("on") else Null);
    assert Finish(env, KNamed(CALLER), inner) == Done(Continue(f, logged));
    assert Drive(env, 1, plan) == Ended(Continue(f, logged));
    assert [SCOPED][1..] == [];
    assert Loop(env, 1, [SCOPED], 0, Start(Null, None), w) == Loop(env, 1, [], 1, f, logged);
  }

  lemma LoggedFlags(w: World)
    ensures LogCall(w, "a::p", Null).shared.flags == w.shared.flags
  {
  }

  /** A reference through an alias escapes the analysis: it answers no and no call reads a flag, yet the flag decides
      the outcome. */
  lemma ScopedReferenceEscapes(limits: Limits)
    ensures var env := WitnessEnv(limits);
            var on := RunPipeline(env, 1, Pipeline([SCOPED]), Null, None, WitnessWorld(true));
            var off := RunPipeline(env, 1, Pipeline([SCOPED]), Null, None, WitnessWorld(false));
            && (forall call :: BlindCall(env, call))
            && NeedsFlags(env, 1, [SCOPED]) == Some(false)
            && !Innocent(env, [SCOPED])
            && on.Value? && off.Value? && on.out != off.out
  {
    ScopedRun(limits, true);
    ScopedRun(limits, false);
    hide RunPipeline;
    ScopedUnseen(limits);
    hide NeedsFlags, Innocent;
  }

  lemma ScopedUnseen(limits: Limits)
    ensures var env := WitnessEnv(limits);
            NeedsFlags(env, 1, [SCOPED]) == Some(false) && !PlainRef(env, SCOPED) && !Innocent(env, [SCOPED])
  {
    var env := WitnessEnv(limits);
    ScopedNames(limits);
    hide ResolveNamed, ParseScopedRef, Trim;
    assert [SCOPED][1..] == [];
    assert !InnocentStep(env, SCOPED);
    if Innocent(env, [SCOPED]) {
      ThroughoutStep(s => if IsTask(s) then None else LiteralTarget(env, s), s => InnocentStep(env, s), [SCOPED], 0);
    }
  }

  // ----- why calls must ignore the flags -----

  /** A middleware that looks the flag up itself, in a step that does not declare so. */
  const READER: Step := Regular("say", [], "", true, None, None, AT)

  function ReaderEnv(limits: Limits): Env {
    WitnessEnv(limits).(invoke := (call, state, shared: Shared) =>
      MiddlewareOk(if Enabled(shared.flags, "beta") then Json.String("on") else Null, None, shared))
  }

  lemma ReaderPlan(limits: Limits, beta: bool)
    ensures var f := Start(Null, None);
            PlanStep(ReaderEnv(limits), READER, 0, [], f, WitnessWorld(beta))
              == Done(Continue(f.(state := if beta then Json.String("on") else Null), WitnessWorld(beta)))
  {
    var env, f, w := ReaderEnv(limits), Start(Null, None), WitnessWorld(beta);
    assert ResolveConfig(env, AT, "say", "", Null) == Resolved("", Null, false);
    var p := Pending(READER, "say", Target(None, false), true, f);
    assert PlanStandard(env, p, 0, "", Null, w)
        == Continue(f.(state := if beta then Json.String("on") else Null), w);
    hide PlanStandard, ResolveConfig;
  }

  lemma ReaderRun(limits: Limits, beta: bool)
    ensures RunPipeline(ReaderEnv(limits), 0, Pipeline([READER]), Null, None, WitnessWorld(beta))
         == Value(Response(if beta then Json.String("on") else Null, JSON_TYPE, None), WitnessWorld(beta))
  {
    var env, f, w := ReaderEnv(limits), Start(Null, None), WitnessWorld(beta);
    ReaderPlan(limits, beta);
    hide PlanStep;
    assert [READER][1..] == [];
    var plan := PlanStep(env, READER, 0, [], f, w);
    assert Loop(env, 0, [READER], 0, f, w) == Loop(env, 0, [], 1, plan.end.frame, plan.end.w);
  }

  /** So does a call that reads a flag without declaring it. */
  lemma UndeclaredReadEscapes(limits: Limits)
    ensures var env := ReaderEnv(limits);
            var on := RunPipeline(env, 0, Pipeline([READER]), Null, None, WitnessWorld(true));
            var off := RunPipeline(env, 0, Pipeline([READER]), Null, None, WitnessWorld(false));
            && NeedsFlags(env, 0, [READER]) == Some(false) && PlainRef(env, READER)
            && on.Value? && off.Value? && on.out != off.out
  {
    ReaderRun(limits, true);
    ReaderRun(limits, false);
    hide RunPipeline;
    assert [READER][1..] == [];
  }
}

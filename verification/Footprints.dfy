/** What a step can run: its inline parts and the pipeline it refers to, fixed before the run; and properties asked of
    everything that running a list of steps can come to. */
module Footprints {
  import opened Base
  import opened JsonValues
  import opened Tags
  import opened Ast
  import opened Responses
  import opened Runtime
  import opened Steps

  /** The pipelines written inside a step. */
  function Parts(s: Step): (parts: seq<Pipeline>)
    ensures forall i :: 0 <= i < |parts| ==> parts[i] < s
  {
    match s
    case Regular(_, _, _, _, _, _, _) => []
    case Result(branches, _) => BranchParts(branches)
    case If(test, thenBranch, elseBranch, _) => [test, thenBranch] + OptionalPart(elseBranch)
    case Dispatch(cases, default, _) => CaseParts(cases) + OptionalPart(default)
    case Foreach(_, body, _) => [body]
  }

  function OptionalPart(p: Option<Pipeline>): seq<Pipeline> { if p.Some? then [p.value] else [] }

  function BranchParts(branches: seq<ResultBranch>): (parts: seq<Pipeline>)
    ensures |parts| == |branches|
    ensures forall i :: 0 <= i < |parts| ==> parts[i] == branches[i].pipeline && parts[i] < branches[i]
  {
    seq(|branches|, i requires 0 <= i < |branches| => branches[i].pipeline)
  }

  function CaseParts(cases: seq<DispatchBranch>): (parts: seq<Pipeline>)
    ensures |parts| == |cases|
    ensures forall i :: 0 <= i < |parts| ==> parts[i] == cases[i].pipeline && parts[i] < cases[i]
  {
    seq(|cases|, i requires 0 <= i < |cases| => cases[i].pipeline)
  }

  /** The step runs as a task. */
  predicate IsTask(s: Step) { s.Regular? && ConditionArgument(s.condition, "async").Some? }

  /** The config a step runs with: it is resolved without looking at the state. */
  function StepConfig(env: Env, s: Step): string
    requires s.Regular?
  {
    ResolveConfig(env, s.loc, EffectiveName(env, s), RawConfig(env, s), Null).config
  }

  lemma ConfigFixed(env: Env, s: Step, input: Json)
    requires s.Regular?
    ensures ResolveConfig(env, s.loc, EffectiveName(env, s), RawConfig(env, s), input).config == StepConfig(env, s)
  {
    hide ResolveVariable, RawConfig, EffectiveName;
  }

  /** The named pipeline a step runs. */
  function RuntimeTarget(env: Env, s: Step): Option<Pipeline> {
    if s.Regular? && EffectiveName(env, s) == "pipeline" then ResolveNamed(env, s.loc, Trim(StepConfig(env, s)))
    else None
  }

  /** Pipelines that a suspended step may still run. */
  function KontParts(k: Kont): seq<Pipeline> {
    match k
    case KIf(thenBranch, elseBranch, _) => [thenBranch] + OptionalPart(elseBranch)
    case KForeach(_, body, _, _, _) => [body]
    case _ => []
  }

  /** A plan of the step runs only parts and the target of the step; only tasks spawn. */
  predicate Stems(env: Env, s: Step, p: Plan) {
    match p
    case Call(pipeline, _, _, k, _) =>
      && (pipeline in Parts(s) || (!IsTask(s) && RuntimeTarget(env, s) == Some(pipeline)))
      && forall q :: q in KontParts(k) ==> q in Parts(s)
    case Fork(_, job, _, _) =>
      && IsTask(s)
      && (job.JobPipeline? ==> RuntimeTarget(env, s) == Some(job.pipeline))
      && (job.JobCall? ==>
            && EffectiveName(env, s) != "pipeline"
            && job.call == Invocation(EffectiveName(env, s), s.args, StepConfig(env, s), None))
    case _ => true
  }

  lemma NamedStems(env: Env, p: Pending, config: string, input: Json, w: World)
    requires p.step.Regular?
    ensures var plan := PlanNamed(env, p, config, input, w);
            plan.Call? ==> ResolveNamed(env, p.step.loc, Trim(config)) == Some(plan.pipeline) && plan.kont == KNamed(p)
    ensures var plan := PlanNamed(env, p, config, input, w); plan.Call? || plan.Done?
  {
    hide ResolveNamed, CallInput, Recover, Trim;
  }

  lemma RegularStems(env: Env, s: Step, idx: nat, rest: seq<Step>, f: Frame, w: World)
    requires s.Regular?
    ensures Stems(env, s, PlanRegular(env, s, idx, rest, f, w))
  {
    ConfigFixed(env, s, f.state);
    var name := EffectiveName(env, s);
    hide ResolveNamed, EffectiveName, RawConfig, StepConfig, Trim, ShouldExecute, IsLast, TargetName, ResolveConfig,
         LogCall,
         PlanStandard, PlanNamed, CallInput, JoinNames, Recover, WithLocation;
    if ShouldExecute(s.condition, env, w.shared, f.state) && !IsTask(s) && name == "pipeline" {
      var r := ResolveConfig(env, s.loc, name, RawConfig(env, s), f.state);
      var f1 := if r.autoNamed then f.(state := r.input) else f;
      var p := Pending(s, name, TargetName(s.condition, f1.state, r.autoNamed), IsLast(rest, env, w.shared, f.state),
                       f1);
      NamedStems(env, p, r.config, r.input, LogCall(w, r.config, r.input));
    }
  }

  lemma {:induction false} CaseStems(env: Env, cases: seq<DispatchBranch>, default: Option<Pipeline>, shared: Shared,
                                     state: Json)
    ensures var p := SelectCase(cases, default, env, shared, state);
            p.Some? ==> p.value in CaseParts(cases) + OptionalPart(default)
    decreases |cases|
  {
    if cases != [] {
      assert CaseParts(cases)[0] == cases[0].pipeline;
      CaseStems(env, cases[1..], default, shared, state);
      var p := SelectCase(cases[1..], default, env, shared, state);
      if p.Some? && p.value in CaseParts(cases[1..]) {
        var i :| 0 <= i < |cases[1..]| && CaseParts(cases[1..])[i] == p.value;
        assert CaseParts(cases)[i + 1] == p.value;
      }
    }
  }

  /** Every plan stems from its step. */
  lemma StepStems(env: Env, s: Step, idx: nat, rest: seq<Step>, f: Frame, w: World)
    ensures Stems(env, s, PlanStep(env, s, idx, rest, f, w))
  {
    hide PlanRegular, GetPath, SetPath, RuntimeTarget;
    match s
    case Regular(_, _, _, _, _, _, _) => RegularStems(env, s, idx, rest, f, w);
    case Dispatch(cases, default, _) => CaseStems(env, cases, default, w.shared, f.state);
    case Result(branches, _) =>
      BranchIn(branches, DefaultBranch);
      BranchIn(branches, if ErrorType(f.state).Some? then CustomBranch(ErrorType(f.state).value) else OkBranch);
    case If(test, thenBranch, elseBranch, _) =>
    case Foreach(_, body, _) =>
  }

  lemma BranchIn(branches: seq<ResultBranch>, kind: BranchType)
    ensures FirstOf(branches, kind).Some? ==> FirstOf(branches, kind).value.pipeline in BranchParts(branches)
  {
    FirstOfKind(branches, kind);
    var b := FirstOf(branches, kind);
    if b.Some? {
      var i :| 0 <= i < |branches| && branches[i] == b.value;
      assert BranchParts(branches)[i] == b.value.pipeline;
    }
  }

  /** Going on after a nested run stays within what was suspended. */
  lemma FinishStems(env: Env, k: Kont, r: Run)
    requires !r.Stuck? && WellFormed(k)
    ensures var plan := Finish(env, k, r);
            && (plan.Call? || plan.Done?)
            && (plan.Call? ==>
                  plan.pipeline in KontParts(k) && forall q :: q in KontParts(plan.kont) ==> q in KontParts(k))
  {
    hide FinishRegular, Recover, SetPath;
  }

  // ----- everything a list of steps can come to -----

  type Follow = Step -> Option<Pipeline>

  /** `ok` holds of the steps, of their parts at any depth, and of what they lead to in at most `n` references. */
  ghost predicate Within(follow: Follow, ok: Step -> bool, n: nat, steps: seq<Step>)
    decreases n, steps
  {
    forall i :: 0 <= i < |steps| ==> StepWithin(follow, ok, n, steps[i])
  }

  ghost predicate StepWithin(follow: Follow, ok: Step -> bool, n: nat, s: Step)
    decreases n, s
  {
    && ok(s)
    && (n > 0 && follow(s).Some? ==> Within(follow, ok, n - 1, follow(s).value.steps))
    && forall i :: 0 <= i < |Parts(s)| ==> Within(follow, ok, n, Parts(s)[i].steps)
  }

  ghost predicate Throughout(follow: Follow, ok: Step -> bool, steps: seq<Step>) {
    forall n: nat :: Within(follow, ok, n, steps)
  }

  /** What holds throughout holds of each step, throughout its parts, and throughout what it leads to. */
  lemma ThroughoutStep(follow: Follow, ok: Step -> bool, steps: seq<Step>, i: nat)
    requires Throughout(follow, ok, steps) && i < |steps|
    ensures ok(steps[i])
    ensures follow(steps[i]).Some? ==> Throughout(follow, ok, follow(steps[i]).value.steps)
    ensures forall p :: p in Parts(steps[i]) ==> Throughout(follow, ok, p.steps)
  {
    var s := steps[i];
    forall n: nat ensures StepWithin(follow, ok, n, s) { assert Within(follow, ok, n, steps); }
    assert StepWithin(follow, ok, 0, s);
    if follow(s).Some? {
      forall n: nat ensures Within(follow, ok, n, follow(s).value.steps) {
        assert StepWithin(follow, ok, n + 1, s);
      }
    }
    forall p | p in Parts(s) ensures Throughout(follow, ok, p.steps) {
      var j :| 0 <= j < |Parts(s)| && Parts(s)[j] == p;
      forall n: nat ensures Within(follow, ok, n, p.steps) { assert StepWithin(follow, ok, n, s); }
    }
  }
}

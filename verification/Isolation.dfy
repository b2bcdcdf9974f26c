/** Programs whose steps keep to their own request: wherever a run may come, it neither consults the cache nor calls a
    middleware in a way that writes outside. */
module Isolation {
  import opened Base
  import opened JsonValues
  import opened Ast
  import opened Responses
  import opened Runtime
  import opened Steps
  import opened Footprints

  /** The call does not touch the cache and leaves what is outside as it is, whatever the state and the request. */
  ghost predicate QuietCall(env: Env, call: Invocation) {
    && !IsCache(env, call.name)
    && forall state, shared :: env.invoke(call, state, shared).shared.outside == shared.outside
  }

  /** The step, or the task it starts, calls a middleware. */
  predicate MakesCall(env: Env, s: Step)
    requires s.Regular?
  {
    EffectiveName(env, s) != "pipeline" && (EffectiveName(env, s) == "join" ==> IsTask(s))
  }

  ghost predicate IsolatedStep(env: Env, s: Step) {
    s.Regular? && MakesCall(env, s) ==>
      forall target :: QuietCall(env, Invocation(EffectiveName(env, s), s.args, StepConfig(env, s), target))
  }

  /** Every step that a run of the pipeline may come to, in tasks too, is isolated. */
  ghost predicate Isolated(env: Env, p: Pipeline) {
    Throughout(s => RuntimeTarget(env, s), s => IsolatedStep(env, s), p.steps)
  }

  /** The step and everything it may run. */
  ghost predicate TameStep(env: Env, s: Step) {
    && IsolatedStep(env, s)
    && (RuntimeTarget(env, s).Some? ==> Isolated(env, RuntimeTarget(env, s).value))
    && forall q :: q in Parts(s) ==> Isolated(env, q)
  }

  ghost predicate TameSteps(env: Env, steps: seq<Step>) {
    forall i :: 0 <= i < |steps| ==> TameStep(env, steps[i])
  }

  lemma IsolatedSteps(env: Env, p: Pipeline)
    requires Isolated(env, p)
    ensures TameSteps(env, p.steps)
  {
    hide RuntimeTarget, IsolatedStep, Parts, Throughout;
    forall i | 0 <= i < |p.steps| ensures TameStep(env, p.steps[i]) {
      ThroughoutStep(s => RuntimeTarget(env, s), s => IsolatedStep(env, s), p.steps, i);
    }
  }

  ghost predicate TameKont(env: Env, k: Kont) { forall q :: q in KontParts(k) ==> Isolated(env, q) }

  ghost predicate TameJob(env: Env, job: Job) {
    && (job.JobPipeline? ==> Isolated(env, job.pipeline))
    && (job.JobCall? ==> QuietCall(env, job.call))
  }

  ghost predicate TamePlan(env: Env, p: Plan) {
    && (p.Call? ==> Isolated(env, p.pipeline) && TameKont(env, p.kont))
    && (p.Fork? ==> TameJob(env, p.job))
  }

  lemma StepPlanTame(env: Env, s: Step, idx: nat, rest: seq<Step>, f: Frame, w: World)
    requires TameStep(env, s)
    ensures TamePlan(env, PlanStep(env, s, idx, rest, f, w))
  {
    hide PlanStep, Isolated, QuietCall, Parts, KontParts, RuntimeTarget, StepConfig, EffectiveName;
    StepStems(env, s, idx, rest, f, w);
  }

  lemma FinishTame(env: Env, k: Kont, r: Run)
    requires WellFormed(k) && !r.Stuck? && TameKont(env, k)
    ensures TamePlan(env, Finish(env, k, r))
  {
    hide Finish, Isolated, KontParts;
    FinishStems(env, k, r);
  }
}

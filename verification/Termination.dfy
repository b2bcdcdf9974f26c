/** Programs whose pipelines do not call each other in a circle: every run ends within a bound that depends on the
    program alone, and the flag analysis answers. */
module Termination {
  import opened Base
  import opened JsonValues
  import opened Tags
  import opened Ast
  import opened Responses
  import opened Runtime
  import opened Steps
  import opened Interpreter
  import opened Footprints
  import opened FlagAnalysis

  // ----- acyclic programs -----

  type Rank = Pipeline -> nat

  /** Every reference in the steps, at any depth, leads to a pipeline of rank below `n`, and so on from there: the rank
      falls along all references that the steps can come to. */
  predicate Below(follow: Follow, rank: Rank, steps: seq<Step>, n: nat)
    decreases n, steps
  {
    forall i :: 0 <= i < |steps| ==> StepBelow(follow, rank, steps[i], n)
  }

  predicate StepBelow(follow: Follow, rank: Rank, s: Step, n: nat)
    decreases n, s
  {
    && (follow(s).Some? ==>
          var q := follow(s).value; rank(q) < n && Below(follow, rank, q.steps, rank(q)))
    && forall i :: 0 <= i < |Parts(s)| ==> Below(follow, rank, Parts(s)[i].steps, n)
  }

  // ----- runs end -----

  /** No run of the pipeline needs more than `bound` nested runs. */
  ghost predicate Ends(env: Env, p: Pipeline, bound: nat) {
    forall fuel: nat, input, handled, w :: fuel >= bound ==> !RunPipeline(env, fuel, p, input, handled, w).Stuck?
  }

  ghost predicate StepEnds(env: Env, s: Step, bound: nat) {
    && (RuntimeTarget(env, s).Some? ==> Ends(env, RuntimeTarget(env, s).value, bound))
    && forall p :: p in Parts(s) ==> Ends(env, p, bound)
  }

  ghost predicate PlanEnds(env: Env, p: Plan, bound: nat) {
    && (p.Call? ==> Ends(env, p.pipeline, bound) && forall q :: q in KontParts(p.kont) ==> Ends(env, q, bound))
    && (p.Fork? && p.job.JobPipeline? ==> Ends(env, p.job.pipeline, bound))
  }

  lemma StepPlanEnds(env: Env, s: Step, idx: nat, rest: seq<Step>, f: Frame, w: World, bound: nat)
    requires StepEnds(env, s, bound)
    ensures PlanEnds(env, PlanStep(env, s, idx, rest, f, w), bound)
  {
    hide PlanStep, Ends, Parts, KontParts, RuntimeTarget;
    StepStems(env, s, idx, rest, f, w);
  }

  lemma FinishEnds(env: Env, k: Kont, r: Run, bound: nat)
    requires WellFormed(k) && !r.Stuck? && forall q :: q in KontParts(k) ==> Ends(env, q, bound)
    ensures PlanEnds(env, Finish(env, k, r), bound)
  {
    hide Finish, Ends, KontParts;
    FinishStems(env, k, r);
  }

  lemma {:induction false} DriveEnds(env: Env, fuel: nat, p: Plan, bound: nat)
    requires Steps.Sound(p) && PlanEnds(env, p, bound) && fuel > bound
    ensures Drive(env, fuel, p).Ended?
    decreases Steps.Rank(p)
  {
    hide Finish, FinishJoin, RunCall, PlanEnds, RunPipeline, KontParts;
    match p
    case Call(pipeline, input, h, k, w) =>
      CallEnds(env, p, bound);
      var r := RunPipeline(env, fuel - 1, pipeline, input, h, w);
      FinishEnds(env, k, r, bound);
      DriveEnds(env, fuel, Finish(env, k, r), bound);
    case Fork(name, job, f, w) =>
      if job.JobPipeline? { CallEnds(env, p, bound); }
    case _ =>
  }

  lemma CallEnds(env: Env, p: Plan, bound: nat)
    requires PlanEnds(env, p, bound)
    ensures p.Call? ==> Ends(env, p.pipeline, bound) && forall q :: q in KontParts(p.kont) ==> Ends(env, q, bound)
    ensures p.Fork? && p.job.JobPipeline? ==> Ends(env, p.job.pipeline, bound)
  {
    hide Ends;
  }

  lemma {:induction false} LoopEnds(env: Env, fuel: nat, steps: seq<Step>, idx: nat, f: Frame, w: World, bound: nat)
    requires fuel > bound && forall i :: 0 <= i < |steps| ==> StepEnds(env, steps[i], bound)
    ensures !Loop(env, fuel, steps, idx, f, w).LoopStuck?
    decreases |steps|
  {
    hide StepEnds, PlanStep, Drive;
    if steps != [] {
      var g := Recheck(f);
      if Skips(steps[0], g) {
        LoopEnds(env, fuel, steps[1..], idx + 1, g, w, bound);
      } else {
        var plan := PlanStep(env, steps[0], idx, steps[1..], g, w);
        StepPlanEnds(env, steps[0], idx, steps[1..], g, w, bound);
        DriveEnds(env, fuel, plan, bound);
        var end := Drive(env, fuel, plan).end;
        if end.Continue? { LoopEnds(env, fuel, steps[1..], idx + 1, end.frame, end.w, bound); }
      }
    }
  }

  lemma PipelineEnds(env: Env, p: Pipeline, bound: nat)
    requires forall i :: 0 <= i < |p.steps| ==> StepEnds(env, p.steps[i], bound)
    ensures Ends(env, p, bound + 1)
  {
    forall fuel: nat, input, handled, w | fuel >= bound + 1
      ensures !RunPipeline(env, fuel, p, input, handled, w).Stuck?
    {
      LoopEnds(env, fuel, p.steps, 0, Start(input, handled), w, bound);
      hide Loop;
    }
  }

  lemma EndsLater(env: Env, p: Pipeline, bound: nat, more: nat)
    requires Ends(env, p, bound) && bound <= more
    ensures Ends(env, p, more)
  {
    hide RunPipeline;
  }

  lemma StepEndsLater(env: Env, s: Step, bound: nat, more: nat)
    requires StepEnds(env, s, bound) && bound <= more
    ensures StepEnds(env, s, more)
  {
    hide RunPipeline, RuntimeTarget, Parts;
  }

  // ----- bounds for acyclic programs -----

  function Target(env: Env): Follow { s => RuntimeTarget(env, s) }

  /** Below a rank that falls, every pipeline has a bound: its parts are smaller, its references lower. */
  lemma {:induction false} PipelineBound(env: Env, rank: Rank, n: nat, p: Pipeline) returns (bound: nat)
    requires Below(Target(env), rank, p.steps, n)
    ensures Ends(env, p, bound)
    decreases n, p
  {
    hide Below, StepEnds;
    bound := StepsBound(env, rank, n, p.steps);
    PipelineEnds(env, p, bound);
    bound := bound + 1;
  }

  lemma {:induction false} StepsBound(env: Env, rank: Rank, n: nat, steps: seq<Step>) returns (bound: nat)
    requires Below(Target(env), rank, steps, n)
    ensures forall i :: 0 <= i < |steps| ==> StepEnds(env, steps[i], bound)
    decreases n, steps
  {
    hide StepEnds, StepBelow;
    bound := 0;
    if steps != [] {
      var first := StepBound(env, rank, n, steps[0]);
      var later := StepsBound(env, rank, n, steps[1..]);
      bound := first + later;
      StepEndsLater(env, steps[0], first, bound);
      forall i | 0 <= i < |steps| ensures StepEnds(env, steps[i], bound) {
        if i > 0 { StepEndsLater(env, steps[1..][i - 1], later, bound); }
      }
    }
  }

  lemma {:induction false} StepBound(env: Env, rank: Rank, n: nat, s: Step) returns (bound: nat)
    requires StepBelow(Target(env), rank, s, n)
    ensures StepEnds(env, s, bound)
    decreases n, s
  {
    hide Ends, RuntimeTarget, Below;
    var inner := PartsBound(env, rank, n, s, |Parts(s)|);
    bound := inner;
    if RuntimeTarget(env, s).Some? {
      var q := RuntimeTarget(env, s).value;
      assert Target(env)(s) == Some(q);
      var outer := PipelineBound(env, rank, rank(q), q);
      bound := inner + outer;
      EndsLater(env, q, outer, bound);
    }
    forall p | p in Parts(s) ensures Ends(env, p, bound) { EndsLater(env, p, inner, bound); }
  }

  lemma {:induction false} PartsBound(env: Env, rank: Rank, n: nat, s: Step, m: nat) returns (bound: nat)
    requires m <= |Parts(s)| && forall i :: 0 <= i < |Parts(s)| ==> Below(Target(env), rank, Parts(s)[i].steps, n)
    ensures forall i :: 0 <= i < m ==> Ends(env, Parts(s)[i], bound)
    decreases n, s, 0, m
  {
    hide Ends, Below, Parts;
    bound := 0;
    if m > 0 {
      var before := PartsBound(env, rank, n, s, m - 1);
      var last := PipelineBound(env, rank, n, Parts(s)[m - 1]);
      bound := before + last;
      forall i | 0 <= i < m ensures Ends(env, Parts(s)[i], bound) {
        EndsLater(env, Parts(s)[i], if i < m - 1 then before else last, bound);
      }
    }
  }

  /** If a rank falls along all references that a pipeline can come to, it has a bound within which every run ends, from
      any input, in any world. */
  lemma AcyclicRunsEnd(env: Env, rank: Rank, n: nat, p: Pipeline) returns (bound: nat)
    requires Below(Target(env), rank, p.steps, n)
    ensures forall fuel: nat, input, handled, w ::
              fuel >= bound ==> !RunPipeline(env, fuel, p, input, handled, w).Stuck?
  {
    hide RunPipeline, Below;
    bound := PipelineBound(env, rank, n, p);
  }

  // ----- the analysis answers -----

  function Literal(env: Env): Follow { s => LiteralTarget(env, s) }

  ghost predicate Answers(env: Env, steps: seq<Step>, bound: nat) {
    forall fuel: nat :: fuel >= bound ==> NeedsFlags(env, fuel, steps).Some?
  }

  lemma {:induction false} AnalysisBound(env: Env, rank: Rank, n: nat, steps: seq<Step>) returns (bound: nat)
    requires Below(Literal(env), rank, steps, n)
    ensures Answers(env, steps, bound)
    decreases n, steps
  {
    hide LiteralTarget, StepNeedsFlags, StepBelow;
    bound := 0;
    if steps != [] {
      var first := StepAnalysis(env, rank, n, steps[0]);
      var later := AnalysisBound(env, rank, n, steps[1..]);
      bound := first + later;
      forall fuel: nat | fuel >= bound ensures NeedsFlags(env, fuel, steps).Some? {
        assert StepNeedsFlags(env, fuel, steps[0]).Some? && NeedsFlags(env, fuel, steps[1..]).Some?;
      }
    }
  }

  lemma {:induction false} StepAnalysis(env: Env, rank: Rank, n: nat, s: Step) returns (bound: nat)
    requires StepBelow(Literal(env), rank, s, n)
    ensures forall fuel: nat :: fuel >= bound ==> StepNeedsFlags(env, fuel, s).Some?
    decreases n, s
  {
    hide NeedsFlags, ReferencedPipeline, Below;
    var inner := PartsAnalysis(env, rank, n, s, |Parts(s)|);
    var outer := 0;
    if LiteralTarget(env, s).Some? {
      var q := LiteralTarget(env, s).value;
      assert Literal(env)(s) == Some(q);
      outer := AnalysisBound(env, rank, rank(q), q.steps);
    }
    bound := inner + outer + 1;
    forall fuel: nat | fuel >= bound ensures StepNeedsFlags(env, fuel, s).Some? {
      PartsAnswer(env, fuel, s);
    }
  }

  lemma {:induction false} PartsAnalysis(env: Env, rank: Rank, n: nat, s: Step, m: nat) returns (bound: nat)
    requires m <= |Parts(s)| && forall i :: 0 <= i < |Parts(s)| ==> Below(Literal(env), rank, Parts(s)[i].steps, n)
    ensures forall i :: 0 <= i < m ==> Answers(env, Parts(s)[i].steps, bound)
    decreases n, s, 0, m
  {
    hide NeedsFlags, Below, Parts;
    bound := 0;
    if m > 0 {
      var before := PartsAnalysis(env, rank, n, s, m - 1);
      var last := AnalysisBound(env, rank, n, Parts(s)[m - 1].steps);
      bound := before + last;
    }
  }

  /** Where the parts and the reference of a step are answered, so is the step. */
  lemma PartsAnswer(env: Env, fuel: nat, s: Step)
    requires forall i :: 0 <= i < |Parts(s)| ==> NeedsFlags(env, fuel, Parts(s)[i].steps).Some?
    requires LiteralTarget(env, s).Some? ==>
               fuel > 0 && NeedsFlags(env, fuel - 1, LiteralTarget(env, s).value.steps).Some?
    ensures StepNeedsFlags(env, fuel, s).Some?
  {
    hide NeedsFlags, ReferencedPipeline;
    match s
    case Result(branches, _) =>
      forall i | 0 <= i < |branches| ensures NeedsFlags(env, fuel, branches[i].pipeline.steps).Some? {
        assert Parts(s)[i] == branches[i].pipeline;
      }
      ResultsAnswer(env, fuel, branches);
    case Dispatch(cases, default, _) =>
      assert default.Some? ==> Parts(s)[|cases|] == default.value;
      forall i | 0 <= i < |cases| ensures NeedsFlags(env, fuel, cases[i].pipeline.steps).Some? {
        assert Parts(s)[i] == cases[i].pipeline;
      }
      CasesAnswer(env, fuel, cases);
    case If(test, thenBranch, elseBranch, _) =>
      assert Parts(s)[0] == test && Parts(s)[1] == thenBranch;
      assert elseBranch.Some? ==> Parts(s)[2] == elseBranch.value;
    case Foreach(_, body, _) => assert Parts(s)[0] == body;
    case Regular(_, _, _, _, _, _, _) =>
  }

  lemma {:induction false} ResultsAnswer(env: Env, fuel: nat, branches: seq<ResultBranch>)
    requires forall i :: 0 <= i < |branches| ==> NeedsFlags(env, fuel, branches[i].pipeline.steps).Some?
    ensures ResultsNeedFlags(env, fuel, branches).Some?
    decreases |branches|
  {
    hide NeedsFlags;
    if branches != [] { ResultsAnswer(env, fuel, branches[1..]); }
  }

  lemma {:induction false} CasesAnswer(env: Env, fuel: nat, cases: seq<DispatchBranch>)
    requires forall i :: 0 <= i < |cases| ==> NeedsFlags(env, fuel, cases[i].pipeline.steps).Some?
    ensures CasesNeedFlags(env, fuel, cases).Some?
    decreases |cases|
  {
    hide NeedsFlags;
    if cases != [] { CasesAnswer(env, fuel, cases[1..]); }
  }

  /** Where a rank falls along the references that the analysis follows from a pipeline, the analysis answers; and if
      what it visits is innocent and the answer is no, runs under any two sets of flags agree. */
  lemma AcyclicFlagsDecided(env: Env, rank: Rank, n: nat, p: Pipeline) returns (answer: bool)
    requires Below(Literal(env), rank, p.steps, n)
    ensures exists bound: nat :: NeedsFlags(env, bound, p.steps) == Some(answer)
    ensures !answer && Innocent(env, p.steps) ==>
              forall fuel, input, handled, w: World, flags ::
                RunSim(RunPipeline(env, fuel, p, input, handled, w),
                       RunPipeline(env, fuel, p, input, handled, w.(shared := w.shared.(flags := flags))))
  {
    hide RunPipeline, NeedsFlags, RunSim, Below, Innocent;
    var bound := AnalysisBound(env, rank, n, p.steps);
    answer := NeedsFlags(env, bound, p.steps).value;
    if !answer && Innocent(env, p.steps) {
      forall fuel, input, handled, w: World, flags
        ensures RunSim(RunPipeline(env, fuel, p, input, handled, w),
                       RunPipeline(env, fuel, p, input, handled, w.(shared := w.shared.(flags := flags))))
      {
        FlagNonInterference(env, bound, fuel, p, input, handled, w, flags);
      }
    }
  }
}

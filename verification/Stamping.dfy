/** Marking every step of a pipeline with the file and the module it belongs to. */
module Stamping {
  import opened Base
  import opened Ast

  function StampLocation(loc: Location, file: string, id: nat): Location {
    loc.(file := Some(file), moduleId := Some(id))
  }

  function Stamp(p: Pipeline, file: string, id: nat): Pipeline { Pipeline(StampSteps(p.steps, file, id)) }

  function StampSteps(steps: seq<Step>, file: string, id: nat): seq<Step> {
    if steps == [] then [] else [StampStep(steps[0], file, id)] + StampSteps(steps[1..], file, id)
  }

  /** Every step below gets the file and the module of the file. */
  function StampStep(s: Step, file: string, id: nat): Step {
    var loc := StampLocation(s.loc, file, id);
    match s
    case Regular(name, args, config, present, condition, targets, _) =>
      Regular(name, args, config, present, condition, targets, loc)
    case Result(branches, _) => Result(StampResults(branches, file, id), loc)
    case If(test, thenBranch, elseBranch, _) =>
      If(Stamp(test, file, id), Stamp(thenBranch, file, id),
         if elseBranch.Some? then Some(Stamp(elseBranch.value, file, id)) else None, loc)
    case Dispatch(cases, default, _) =>
      Dispatch(StampCases(cases, file, id), if default.Some? then Some(Stamp(default.value, file, id)) else None, loc)
    case Foreach(selector, body, _) => Foreach(selector, Stamp(body, file, id), loc)
  }

  function StampResults(branches: seq<ResultBranch>, file: string, id: nat): seq<ResultBranch> {
    if branches == [] then []
    else
      assert branches[0].pipeline < branches[0];
      [branches[0].(pipeline := Stamp(branches[0].pipeline, file, id))] + StampResults(branches[1..], file, id)
  }

  function StampCases(cases: seq<DispatchBranch>, file: string, id: nat): seq<DispatchBranch> {
    if cases == [] then []
    else
      assert cases[0].pipeline < cases[0];
      [cases[0].(pipeline := Stamp(cases[0].pipeline, file, id))] + StampCases(cases[1..], file, id)
  }

  /** Every step of the pipeline, at any depth, belongs to the file and its module. */
  predicate Belongs(p: Pipeline, file: string, id: nat) {
    forall i :: 0 <= i < |p.steps| ==> StepBelongs(p.steps[i], file, id)
  }

  predicate StepBelongs(s: Step, file: string, id: nat) {
    && s.loc.moduleId == Some(id) && s.loc.file == Some(file)
    && match s
       case Regular(_, _, _, _, _, _, _) => true
       case Result(branches, _) => forall i :: 0 <= i < |branches| ==> Belongs(branches[i].pipeline, file, id)
       case If(test, thenBranch, elseBranch, _) =>
         && Belongs(test, file, id) && Belongs(thenBranch, file, id)
         && (elseBranch.Some? ==> Belongs(elseBranch.value, file, id))
       case Dispatch(cases, default, _) =>
         && (forall i :: 0 <= i < |cases| ==> Belongs(cases[i].pipeline, file, id))
         && (default.Some? ==> Belongs(default.value, file, id))
       case Foreach(_, body, _) => Belongs(body, file, id)
  }

  lemma {:induction false} StampBelongs(p: Pipeline, file: string, id: nat)
    ensures Belongs(Stamp(p, file, id), file, id)
    decreases p
  {
    StepsBelong(p.steps, file, id);
  }

  lemma {:induction false} StepsBelong(steps: seq<Step>, file: string, id: nat)
    ensures Belongs(Pipeline(StampSteps(steps, file, id)), file, id)
    decreases steps
  {
    if steps != [] {
      StampStepBelongs(steps[0], file, id);
      StepsBelong(steps[1..], file, id);
      assert StampSteps(steps, file, id)[1..] == StampSteps(steps[1..], file, id);
      var stamped := StampSteps(steps, file, id);
      forall i | 0 <= i < |stamped| ensures StepBelongs(stamped[i], file, id) {
        if i > 0 { assert stamped[i] == Pipeline(StampSteps(steps[1..], file, id)).steps[i - 1]; }
      }
    }
  }

  lemma {:induction false} StampStepBelongs(s: Step, file: string, id: nat)
    ensures StepBelongs(StampStep(s, file, id), file, id)
    decreases s
  {
    match s
    case Regular(_, _, _, _, _, _, _) =>
    case Result(branches, _) => ResultsBelong(branches, file, id);
    case If(test, thenBranch, elseBranch, _) =>
      StampBelongs(test, file, id);
      StampBelongs(thenBranch, file, id);
      if elseBranch.Some? { StampBelongs(elseBranch.value, file, id); }
    case Dispatch(cases, default, _) =>
      CasesBelong(cases, file, id);
      if default.Some? { StampBelongs(default.value, file, id); }
    case Foreach(_, body, _) => StampBelongs(body, file, id);
  }

  lemma {:induction false} ResultsBelong(branches: seq<ResultBranch>, file: string, id: nat)
    ensures forall i :: 0 <= i < |StampResults(branches, file, id)| ==>
              Belongs(StampResults(branches, file, id)[i].pipeline, file, id)
    decreases branches
  {
    if branches != [] {
      assert branches[0].pipeline < branches[0];
      StampBelongs(branches[0].pipeline, file, id);
      ResultsBelong(branches[1..], file, id);
    }
  }

  lemma {:induction false} CasesBelong(cases: seq<DispatchBranch>, file: string, id: nat)
    ensures forall i :: 0 <= i < |StampCases(cases, file, id)| ==>
              Belongs(StampCases(cases, file, id)[i].pipeline, file, id)
    decreases cases
  {
    if cases != [] {
      assert cases[0].pipeline < cases[0];
      StampBelongs(cases[0].pipeline, file, id);
      CasesBelong(cases[1..], file, id);
    }
  }

  // ----- stamping keeps the program -----

  /** The same place in a file, whichever file and module it is said to be in. */
  predicate SamePlace(a: Location, b: Location) { b == a.(file := b.file, moduleId := b.moduleId) }

  /** The two pipelines differ in nothing but the files and modules of their steps. */
  predicate Twins(p: Pipeline, q: Pipeline)
    decreases p
  {
    |p.steps| == |q.steps| && forall i :: 0 <= i < |p.steps| ==> StepTwins(p.steps[i], q.steps[i])
  }

  predicate OptionalTwins(p: Option<Pipeline>, q: Option<Pipeline>)
    decreases p
  {
    p.Some? == q.Some? && (p.Some? ==> Twins(p.value, q.value))
  }

  predicate StepTwins(s: Step, twin: Step)
    decreases s
  {
    SamePlace(s.loc, twin.loc) &&
    match s
    case Regular(name, args, config, present, condition, targets, _) =>
      twin == Regular(name, args, config, present, condition, targets, twin.loc)
    case Result(branches, _) =>
      && twin.Result? && |twin.results| == |branches|
      && forall i :: 0 <= i < |branches| ==>
           && twin.results[i].kind == branches[i].kind && twin.results[i].status == branches[i].status
           && Twins(branches[i].pipeline, twin.results[i].pipeline)
    case If(test, thenBranch, elseBranch, _) =>
      && twin.If? && Twins(test, twin.test) && Twins(thenBranch, twin.thenBranch)
      && OptionalTwins(elseBranch, twin.elseBranch)
    case Dispatch(cases, default, _) =>
      && twin.Dispatch? && |twin.cases| == |cases| && OptionalTwins(default, twin.default)
      && forall i :: 0 <= i < |cases| ==>
           twin.cases[i].condition == cases[i].condition && Twins(cases[i].pipeline, twin.cases[i].pipeline)
    case Foreach(selector, body, _) => twin.Foreach? && twin.selector == selector && Twins(body, twin.body)
  }

  /** Stamping changes the files and modules of steps and nothing else: conditions, configs, branches and their order
      stay. */
  lemma {:induction false} StampTwins(p: Pipeline, file: string, id: nat)
    ensures Twins(p, Stamp(p, file, id))
    decreases p
  {
    StepsTwins(p.steps, file, id);
  }

  lemma {:induction false} StepsTwins(steps: seq<Step>, file: string, id: nat)
    ensures Twins(Pipeline(steps), Pipeline(StampSteps(steps, file, id)))
    decreases steps
  {
    if steps != [] {
      StampStepTwins(steps[0], file, id);
      StepsTwins(steps[1..], file, id);
      var stamped := StampSteps(steps, file, id);
      assert stamped[1..] == StampSteps(steps[1..], file, id);
      hide StampStep, StepTwins;
      assert |steps[1..]| == |stamped[1..]|;
      forall i | 0 <= i < |steps| ensures StepTwins(steps[i], stamped[i]) {
        if i > 0 {
          assert StepTwins(Pipeline(steps[1..]).steps[i - 1], Pipeline(stamped[1..]).steps[i - 1]);
        }
      }
    }
  }

  lemma {:induction false} StampStepTwins(s: Step, file: string, id: nat)
    ensures StepTwins(s, StampStep(s, file, id))
    decreases s
  {
    hide Twins, Stamp;
    match s
    case Regular(_, _, _, _, _, _, _) =>
    case Result(branches, _) => ResultsTwins(branches, file, id);
    case If(test, thenBranch, elseBranch, _) =>
      StampTwins(test, file, id);
      StampTwins(thenBranch, file, id);
      if elseBranch.Some? { StampTwins(elseBranch.value, file, id); }
    case Dispatch(cases, default, _) =>
      CasesTwins(cases, file, id);
      if default.Some? { StampTwins(default.value, file, id); }
    case Foreach(_, body, _) => StampTwins(body, file, id);
  }

  lemma {:induction false} ResultsTwins(branches: seq<ResultBranch>, file: string, id: nat)
    ensures var stamped := StampResults(branches, file, id);
            && |stamped| == |branches|
            && forall i :: 0 <= i < |branches| ==>
                 && stamped[i].kind == branches[i].kind && stamped[i].status == branches[i].status
                 && Twins(branches[i].pipeline, stamped[i].pipeline)
    decreases branches
  {
    hide Twins, Stamp;
    if branches != [] {
      assert branches[0].pipeline < branches[0];
      StampTwins(branches[0].pipeline, file, id);
      ResultsTwins(branches[1..], file, id);
    }
  }

  lemma {:induction false} CasesTwins(cases: seq<DispatchBranch>, file: string, id: nat)
    ensures var stamped := StampCases(cases, file, id);
            && |stamped| == |cases|
            && forall i :: 0 <= i < |cases| ==>
                 && stamped[i].condition == cases[i].condition
                 && Twins(cases[i].pipeline, stamped[i].pipeline)
    decreases cases
  {
    hide Twins, Stamp;
    if cases != [] {
      assert cases[0].pipeline < cases[0];
      StampTwins(cases[0].pipeline, file, id);
      CasesTwins(cases[1..], file, id);
    }
  }
}

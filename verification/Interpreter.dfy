/** The pipeline interpreter. Fuel bounds the depth of nested pipeline runs, since named pipelines may call
    themselves; a run that needs more is `Stuck`. */
module Interpreter {
  import opened Base
  import opened JsonValues
  import opened Ast
  import opened Responses
  import opened Runtime
  import opened Steps

  datatype StepResult = OutOfFuel | Ended(end: StepEnd)

  datatype LoopEnd =
    | LoopStuck
    | LoopRaised(error: WebPipeError, w: World)
    | LoopDone(out: Response, frame: Frame, w: World)

  function Start(input: Json, handled: Option<string>): Frame {
    Frame(input, JSON_TYPE, None, [], handled, [])
  }

  /** The handled error type survives only while the state still carries it. */
  function Recheck(f: Frame): Frame {
    if f.handled == ErrorType(f.state) then f else f.(handled := None)
  }

  /** Typed errors skip everything up to the next `result`, unless this branch is handling them. */
  predicate Skips(s: Step, f: Frame) {
    ErrorType(f.state).Some? && f.handled.None? && !s.Result?
  }

  function Drive(env: Env, fuel: nat, p: Plan): StepResult
    requires Sound(p)
    decreases fuel, 0, Rank(p)
  {
    match p
    case Done(end) => Ended(end)
    case Call(pipeline, input, handled, k, w) =>
      if fuel == 0 then OutOfFuel
      else
        var r := RunPipeline(env, fuel - 1, pipeline, input, handled, w);
        if r.Stuck? then OutOfFuel else Drive(env, fuel, Finish(env, k, r))
    case Fork(name, job, f, w) =>
      (match job
       case JobFailed(e) => Ended(Continue(f, AfterTask(w, name, TaskError(Show(e)), TaskWorld(w))))
       case JobCall(call, input, loc) =>
         var r := RunCall(env, call, input, TaskWorld(w));
         Ended(Continue(f, AfterTask(w, name, JobOutcome(r, loc), r.w)))
       case JobPipeline(pipeline, input, loc) =>
         if fuel == 0 then OutOfFuel
         else
           var r := RunPipeline(env, fuel - 1, pipeline, input, None, TaskWorld(w));
           if r.Stuck? then OutOfFuel else Ended(Continue(f, AfterTask(w, name, JobOutcome(r, loc), r.w))))
    case Gather(names, input, pending, w) =>
      Ended(FinishJoin(env, pending, input, Collect(names, w.tasks), w.(tasks := Remaining(names, w.tasks))))
  }

  function Loop(env: Env, fuel: nat, steps: seq<Step>, idx: nat, f: Frame, w: World): LoopEnd
    decreases fuel, 1, |steps|
  {
    if steps == [] then LoopDone(Response(f.state, f.contentType, f.status), f, w)
    else
      var g := Recheck(f);
      if Skips(steps[0], g) then Loop(env, fuel, steps[1..], idx + 1, g, w)
      else match Drive(env, fuel, PlanStep(env, steps[0], idx, steps[1..], g, w))
        case OutOfFuel => LoopStuck
        case Ended(Raised(e, w1)) => LoopRaised(e, w1)
        case Ended(Return(out, f1, w1)) => LoopDone(out, f1, w1)
        case Ended(Continue(f1, w1)) => Loop(env, fuel, steps[1..], idx + 1, f1, w1)
  }

  function Close(env: Env, end: LoopEnd): Run {
    match end
    case LoopStuck => Stuck
    case LoopRaised(e, w) => Failed(e, w)
    case LoopDone(out, f, w) => Value(out, Settle(env, f.saves, out, w))
  }

  function RunPipeline(env: Env, fuel: nat, p: Pipeline, input: Json, handled: Option<string>, w: World): Run
    decreases fuel, 2, 0
  {
    Close(env, Loop(env, fuel, p.steps, 0, Start(input, handled), w))
  }
}

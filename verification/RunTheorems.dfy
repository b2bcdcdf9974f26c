/** Laws of whole pipeline runs: fuel is only a bound, code after `result` is dead, and typed errors
    travel straight to the next `result`. */
module RunTheorems {
  import opened Base
  import opened JsonValues
  import opened Ast
  import opened Responses
  import opened Runtime
  import opened Steps
  import opened Interpreter
  import opened Frames

  // ----- fuel -----

  lemma {:induction false} DriveMoreFuel(env: Env, fuel: nat, more: nat, p: Plan)
    requires Sound(p) && fuel <= more && Drive(env, fuel, p).Ended?
    ensures Drive(env, more, p) == Drive(env, fuel, p)
    decreases fuel, 0, Rank(p)
  {
    hide Finish;
    match p
    case Call(pipeline, input, handled, k, w) =>
      RunMoreFuel(env, fuel - 1, more - 1, pipeline, input, handled, w);
      var r := RunPipeline(env, fuel - 1, pipeline, input, handled, w);
      DriveMoreFuel(env, fuel, more, Finish(env, k, r));
    case Fork(_, JobPipeline(pipeline, input, _), _, w) =>
      RunMoreFuel(env, fuel - 1, more - 1, pipeline, input, None, TaskWorld(w));
    case _ =>
  }

  lemma {:induction false} LoopMoreFuel(env: Env, fuel: nat, more: nat, steps: seq<Step>, idx: nat, f: Frame, w: World)
    requires fuel <= more && !Loop(env, fuel, steps, idx, f, w).LoopStuck?
    ensures Loop(env, more, steps, idx, f, w) == Loop(env, fuel, steps, idx, f, w)
    decreases fuel, 1, |steps|
  {
    hide PlanStep, Drive;
    if steps != [] {
      var g := Recheck(f);
      if Skips(steps[0], g) {
        LoopMoreFuel(env, fuel, more, steps[1..], idx + 1, g, w);
      } else {
        var plan := PlanStep(env, steps[0], idx, steps[1..], g, w);
        DriveMoreFuel(env, fuel, more, plan);
        var end := Drive(env, fuel, plan).end;
        if end.Continue? { LoopMoreFuel(env, fuel, more, steps[1..], idx + 1, end.frame, end.w); }
      }
    }
  }

  /** A run that ends does so with the same result under any larger bound. */
  lemma {:induction false} RunMoreFuel(env: Env, fuel: nat, more: nat, p: Pipeline, input: Json,
                                       handled: Option<string>, w: World)
    requires fuel <= more && !RunPipeline(env, fuel, p, input, handled, w).Stuck?
    ensures RunPipeline(env, more, p, input, handled, w) == RunPipeline(env, fuel, p, input, handled, w)
    decreases fuel, 2, 0
  {
    LoopMoreFuel(env, fuel, more, p.steps, 0, Start(input, handled), w);
  }

  // ----- dead code after `result` -----

  /** A `result` step never falls through. */
  lemma ResultNeverContinues(env: Env, fuel: nat, s: Step, idx: nat, rest: seq<Step>, f: Frame, w: World)
    requires s.Result?
    ensures var r := Drive(env, fuel, PlanStep(env, s, idx, rest, f, w));
            r.OutOfFuel? || r.end.Return? || r.end.Raised?
    ensures PlanStep(env, s, idx, rest, f, w) == PlanStep(env, s, 0, [], f, w)
  {
    var plan := PlanStep(env, s, idx, rest, f, w);
    if plan.Call? && fuel > 0 {
      var r := RunPipeline(env, fuel - 1, plan.pipeline, plan.input, plan.handled, plan.w);
      if !r.Stuck? { assert Finish(env, plan.kont, r).Done?; }
    }
  }

  /** The lookahead of a step cannot tell what follows a later `result`. */
  lemma LookaheadStopsAtResult(env: Env, s: Step, idx: nat, mid: seq<Step>, result: Step, tail: seq<Step>, f: Frame,
                               w: World)
    requires result.Result?
    ensures PlanStep(env, s, idx, mid + [result] + tail, f, w) == PlanStep(env, s, idx, mid + [result], f, w)
  {
    assert (mid + [result] + tail)[|mid|] == result && (mid + [result])[|mid|] == result;
    assert !IsLast(mid + [result] + tail, env, w.shared, f.state);
    assert !IsLast(mid + [result], env, w.shared, f.state);
  }

  lemma {:induction false} LoopDeadCode(env: Env, fuel: nat, before: seq<Step>, result: Step, tail: seq<Step>,
                                        idx: nat, f: Frame, w: World)
    requires result.Result?
    ensures Loop(env, fuel, before + [result] + tail, idx, f, w) == Loop(env, fuel, before + [result], idx, f, w)
    decreases |before|
  {
    hide PlanStep, Drive;
    var g := Recheck(f);
    if before == [] {
      assert (before + [result] + tail)[0] == result && (before + [result])[0] == result;
      ResultNeverContinues(env, fuel, result, idx, (before + [result] + tail)[1..], g, w);
      ResultNeverContinues(env, fuel, result, idx, (before + [result])[1..], g, w);
    } else {
      var rest := before[1..];
      assert (before + [result] + tail)[1..] == rest + [result] + tail;
      assert (before + [result])[1..] == rest + [result];
      if Skips(before[0], g) {
        LoopDeadCode(env, fuel, rest, result, tail, idx + 1, g, w);
      } else {
        LookaheadStopsAtResult(env, before[0], idx, rest, result, tail, g, w);
        var r := Drive(env, fuel, PlanStep(env, before[0], idx, rest + [result], g, w));
        if r.Ended? && r.end.Continue? {
          LoopDeadCode(env, fuel, rest, result, tail, idx + 1, r.end.frame, r.end.w);
        }
      }
    }
  }

  /** Whatever follows a `result` step changes nothing about a run: neither its outcome nor its effects. */
  lemma DeadCodeAfterResult(env: Env, fuel: nat, before: seq<Step>, result: Step, tail: seq<Step>,
                            input: Json, handled: Option<string>, w: World)
    requires result.Result?
    ensures RunPipeline(env, fuel, Pipeline(before + [result] + tail), input, handled, w)
         == RunPipeline(env, fuel, Pipeline(before + [result]), input, handled, w)
  {
    LoopDeadCode(env, fuel, before, result, tail, 0, Start(input, handled), w);
  }

  // ----- typed errors -----

  predicate Unhandled(f: Frame) { ErrorType(f.state).Some? && f.handled != ErrorType(f.state) }

  function FirstResult(steps: seq<Step>): (r: Option<Step>)
    ensures r.Some? ==> r.value in steps && r.value.Result?
  {
    if steps == [] then None else if steps[0].Result? then Some(steps[0]) else FirstResult(steps[1..])
  }

  lemma {:induction false} LoopUnhandled(env: Env, fuel: nat, steps: seq<Step>, idx: nat, f: Frame, w: World)
    requires Unhandled(f)
    ensures var result := FirstResult(steps);
            if result.None? then
              var end := Loop(env, fuel, steps, idx, f, w);
              end.LoopDone? && end.out == Response(f.state, f.contentType, f.status) && end.w == w
                && end.frame.(handled := None) == f.(handled := None)
            else Loop(env, fuel, steps, idx, f, w) == Loop(env, fuel, [result.value], 0, f, w)
    decreases |steps|
  {
    hide PlanStep, Drive;
    if steps != [] {
      var g := Recheck(f);
      if steps[0].Result? {
        ResultNeverContinues(env, fuel, steps[0], idx, steps[1..], g, w);
        ResultNeverContinues(env, fuel, steps[0], 0, [steps[0]][1..], g, w);
      } else {
        LoopUnhandled(env, fuel, steps[1..], idx + 1, g, w);
        if FirstResult(steps).Some? { assert Recheck(g) == g; }
      }
    }
  }

  /** A run that starts on an unhandled typed error is its first `result` step alone, or hands the input
      back untouched when there is none. */
  lemma UnhandledErrorSkips(env: Env, fuel: nat, p: Pipeline, input: Json, handled: Option<string>, w: World)
    requires ErrorType(input).Some? && handled != ErrorType(input)
    ensures RunPipeline(env, fuel, p, input, handled, w) ==
            match FirstResult(p.steps)
            case None => Value(Response(input, JSON_TYPE, None), w)
            case Some(result) => RunPipeline(env, fuel, Pipeline([result]), input, handled, w)
  {
    LoopUnhandled(env, fuel, p.steps, 0, Start(input, handled), w);
  }

  /** What the loop saw when it reached a step, and whether it ran it. */
  datatype Visit = Visit(step: Step, state: Json, ran: bool)

  /** The visits of a loop, in order. */
  function Visits(env: Env, fuel: nat, steps: seq<Step>, idx: nat, f: Frame, w: World): seq<Visit>
    decreases |steps|
  {
    if steps == [] then []
    else
      var g := Recheck(f);
      if Skips(steps[0], g) then
        [Visit(steps[0], f.state, false)] + Visits(env, fuel, steps[1..], idx + 1, g, w)
      else
        [Visit(steps[0], f.state, true)] +
        match Drive(env, fuel, PlanStep(env, steps[0], idx, steps[1..], g, w))
        case Ended(Continue(f1, w1)) => Visits(env, fuel, steps[1..], idx + 1, f1, w1)
        case _ => []
  }

  lemma HandledBefore(first: Visit, later: seq<Visit>, i: nat, handled: Option<string>)
    requires i < |later| && HandledThroughout(later, i, handled) && ErrorType(first.state) == handled
    ensures HandledThroughout([first] + later, i + 1, handled)
  {
    hide ErrorType;
    var visits := [first] + later;
    forall j | 0 <= j <= i + 1 ensures ErrorType(visits[j].state) == handled {
      if j > 0 { assert visits[j] == later[j - 1]; }
    }
  }

  /** A step other than `result` runs on a typed error only while the run is handling exactly that error and
      every state it has visited so far carried it. */
  lemma {:induction false} ErrorsRunOnlyWhileHandled(env: Env, fuel: nat, steps: seq<Step>, idx: nat, f: Frame,
                                                     w: World, i: nat)
    requires i < |Visits(env, fuel, steps, idx, f, w)|
    requires RunsOnError(Visits(env, fuel, steps, idx, f, w)[i])
    ensures HandledThroughout(Visits(env, fuel, steps, idx, f, w), i, f.handled)
    decreases |steps|
  {
    hide PlanStep, Drive;
    var g := Recheck(f);
    var visits := Visits(env, fuel, steps, idx, f, w);
    if i > 0 {
      if Skips(steps[0], g) {
        VisitsAfterSkip(env, fuel, steps, idx, f, w, i);
      } else {
        var plan := PlanStep(env, steps[0], idx, steps[1..], g, w);
        StepFollows(env, steps[0], idx, steps[1..], g, w);
        DriveFollows(env, fuel, plan, g);
        var end := Drive(env, fuel, plan).end;
        var later := Visits(env, fuel, steps[1..], idx + 1, end.frame, end.w);
        assert visits == [visits[0]] + later;
        hide Visits;
        ErrorsRunOnlyWhileHandled(env, fuel, steps[1..], idx + 1, end.frame, end.w, i - 1);
        assert later[i - 1] == visits[i];
        HandledBefore(visits[0], later, i - 1, end.frame.handled);
      }
    }
  }

  predicate RunsOnError(v: Visit) { v.ran && !v.step.Result? && ErrorType(v.state).Some? }

  ghost predicate HandledThroughout(visits: seq<Visit>, i: nat, handled: Option<string>)
    requires i < |visits|
  {
    handled.Some? && forall j :: 0 <= j <= i ==> ErrorType(visits[j].state) == handled
  }

  /** Once a typed error is skipped over, only a `result` step can run on it. */
  lemma {:induction false} VisitsAfterSkip(env: Env, fuel: nat, steps: seq<Step>, idx: nat, f: Frame, w: World, i: nat)
    requires ErrorType(f.state).Some? && Recheck(f).handled.None?
    requires i < |Visits(env, fuel, steps, idx, f, w)|
    ensures !RunsOnError(Visits(env, fuel, steps, idx, f, w)[i])
    decreases |steps|
  {
    hide PlanStep, Drive;
    var g := Recheck(f);
    var visits := Visits(env, fuel, steps, idx, f, w);
    if Skips(steps[0], g) {
      assert visits == [visits[0]] + Visits(env, fuel, steps[1..], idx + 1, g, w);
      if i > 0 { VisitsAfterSkip(env, fuel, steps[1..], idx + 1, g, w, i - 1); }
    } else {
      ResultNeverContinues(env, fuel, steps[0], idx, steps[1..], g, w);
    }
  }
}

/** Which branch a control-flow step takes, on what it runs, and what the run goes on with. */
module ControlFlow {
  import opened Base
  import opened JsonValues
  import opened Tags
  import opened Ast
  import opened Responses
  import opened Runtime
  import opened Steps
  import opened Interpreter
  import opened Conditions
  import opened StateFolding

  /** The run goes on with the branch's state; its status and content type count where it set them. */
  predicate GoesOnWith(f: Frame, out: Response, w: World, end: StepEnd) {
    && end.Continue? && end.w == w
    && end.frame == f.(state := out.body, status := end.frame.status, contentType := end.frame.contentType)
    && end.frame.status == (if out.status == None then f.status else out.status)
    && end.frame.contentType == (if out.contentType == "application/json" then f.contentType else out.contentType)
  }

  /** The branch runs on the state as it is, in `w`, handling nothing; its error is the step's error. */
  predicate TakesBranch(env: Env, fuel: nat, branch: Pipeline, f: Frame, w: World, r: StepResult)
    requires fuel > 0
  {
    match RunPipeline(env, fuel - 1, branch, f.state, None, w)
    case Stuck => r.OutOfFuel?
    case Failed(e, v) => r == Ended(Raised(e, v))
    case Value(out, v) => r.Ended? && GoesOnWith(f, out, v, r.end)
  }

  lemma BranchTaken(env: Env, fuel: nat, branch: Pipeline, f: Frame, w: World)
    requires fuel > 0
    ensures TakesBranch(env, fuel, branch, f, w, Drive(env, fuel, Call(branch, f.state, None, KBranch(f), w)))
  {
    hide RunPipeline;
  }

  /** An `if` runs its test on the state, keeps only the world the test leaves, and runs `then` unless the test came out
      null or false; then it runs `else`, or goes on as it was if there is none. */
  lemma IfTakes(env: Env, fuel: nat, test: Pipeline, thenBranch: Pipeline, elseBranch: Option<Pipeline>, loc: Location,
                idx: nat, rest: seq<Step>, f: Frame, w: World)
    requires fuel > 0
    ensures var r := Drive(env, fuel, PlanStep(env, If(test, thenBranch, elseBranch, loc), idx, rest, f, w));
            match RunPipeline(env, fuel - 1, test, f.state, None, w)
            case Stuck => r.OutOfFuel?
            case Failed(e, v) => r == Ended(Raised(e, v))
            case Value(out, v) =>
              if out.body != Null && out.body != Bool(false) then TakesBranch(env, fuel, thenBranch, f, v, r)
              else if elseBranch.Some? then TakesBranch(env, fuel, elseBranch.value, f, v, r)
              else r == Ended(Continue(f, v))
  {
    hide RunPipeline, TakesBranch;
    var run := RunPipeline(env, fuel - 1, test, f.state, None, w);
    if run.Value? {
      BranchTaken(env, fuel, thenBranch, f, run.w);
      if elseBranch.Some? { BranchTaken(env, fuel, elseBranch.value, f, run.w); }
    }
  }

  /** A `dispatch` runs the first case whose condition holds, else the default, else goes on as it was. */
  lemma DispatchTakes(env: Env, fuel: nat, cases: seq<DispatchBranch>, default: Option<Pipeline>, loc: Location,
                      idx: nat, rest: seq<Step>, f: Frame, w: World, i: nat)
    requires fuel > 0 && FirstHolding(cases, env, w.shared, f.state, i)
    ensures var r := Drive(env, fuel, PlanStep(env, Dispatch(cases, default, loc), idx, rest, f, w));
            if i < |cases| then TakesBranch(env, fuel, cases[i].pipeline, f, w, r)
            else if default.Some? then TakesBranch(env, fuel, default.value, f, w, r)
            else r == Ended(Continue(f, w))
  {
    hide RunPipeline, TakesBranch, FirstHolding;
    CaseMeans(cases, default, env, w.shared, f.state, i);
    if i < |cases| { BranchTaken(env, fuel, cases[i].pipeline, f, w); }
    else if default.Some? { BranchTaken(env, fuel, default.value, f, w); }
    hide SelectCase;
  }

  // ----- results -----

  /** What the state asks a `result` step for: the branch of its error, or `ok`. */
  ghost predicate AsksFor(v: Json, handled: Option<string>, kind: BranchType) {
    match handled
    case Some(t) => Carries(v, t) && kind == CustomBranch(t)
    case None => (forall t :: !Carries(v, t)) && kind == OkBranch
  }

  predicate FirstOfItsKind(branches: seq<ResultBranch>, i: nat) {
    i < |branches| && forall j :: 0 <= j < i ==> branches[j].kind != branches[i].kind
  }

  predicate Lacks(branches: seq<ResultBranch>, kind: BranchType) { forall b :: b in branches ==> b.kind != kind }

  /** The first branch of the kind asked for, or the first default if there is none. */
  predicate Answers(branches: seq<ResultBranch>, kind: BranchType, i: nat) {
    && FirstOfItsKind(branches, i)
    && (branches[i].kind == kind || (branches[i].kind == DefaultBranch && Lacks(branches, kind)))
  }

  lemma {:induction false} FirstIs(branches: seq<ResultBranch>, i: nat)
    requires FirstOfItsKind(branches, i)
    ensures FirstOf(branches, branches[i].kind) == Some(branches[i])
    decreases |branches|
  {
    if i > 0 {
      assert branches[0].kind != branches[i].kind;
      assert forall j :: 0 <= j < i - 1 ==> branches[1..][j] == branches[j + 1];
      FirstIs(branches[1..], i - 1);
    }
  }

  lemma LackingNone(branches: seq<ResultBranch>, kind: BranchType)
    requires Lacks(branches, kind)
    ensures FirstOf(branches, kind) == None
  {
    FirstOfKind(branches, kind);
  }

  /** The cookies of the state stay unless the branch sets its own or leaves no object. */
  predicate KeepsCookies(before: Json, body: Json, after: Json) {
    if body.Object? && "setCookies" !in body.fields && before.Object? && "setCookies" in before.fields
    then after == Object(body.fields["setCookies" := before.fields["setCookies"]])
    else after == body
  }

  /** What the chosen branch makes of the run: its own status, its content type if it set one, inherited cookies. The
      branch handles the error it was chosen for. */
  predicate EndsWith(env: Env, fuel: nat, b: ResultBranch, handled: Option<string>, f: Frame, w: World, r: StepResult)
    requires fuel > 0
  {
    match RunPipeline(env, fuel - 1, b.pipeline, f.state, handled, w)
    case Stuck => r.OutOfFuel?
    case Failed(e, v) => r == Ended(Raised(e, v))
    case Value(out, v) =>
      && r.Ended? && r.end.Return? && r.end.w == v && r.end.frame == f.(state := r.end.out.body)
      && KeepsCookies(f.state, out.body, r.end.out.body)
      && r.end.out.status == Some(b.status)
      && r.end.out.contentType == (if out.contentType == "application/json" then f.contentType else out.contentType)
  }

  lemma BranchSelected(branches: seq<ResultBranch>, v: Json, handled: Option<string>, kind: BranchType, i: nat)
    requires AsksFor(v, handled, kind) && Answers(branches, kind, i)
    ensures ErrorType(v) == handled && SelectBranch(branches, handled) == Some(branches[i])
  {
    AskedType(v, handled, kind);
    FirstIs(branches, i);
    if branches[i].kind != kind { LackingNone(branches, kind); }
    hide Carries, ErrorType, FirstOf;
  }

  lemma AskedType(v: Json, handled: Option<string>, kind: BranchType)
    requires AsksFor(v, handled, kind)
    ensures ErrorType(v) == handled
    ensures kind == if handled.Some? then CustomBranch(handled.value) else OkBranch
  {
    if handled.Some? { ErrorTypeMeans(v, handled.value); }
    else if ErrorType(v).Some? { ErrorTypeMeans(v, ErrorType(v).value); assert false; }
  }

  /** A `result` step runs the branch that answers its state and ends the whole pipeline with what that makes. */
  lemma ResultTakes(env: Env, fuel: nat, branches: seq<ResultBranch>, loc: Location, idx: nat, rest: seq<Step>,
                    f: Frame, w: World, handled: Option<string>, kind: BranchType, i: nat)
    requires fuel > 0 && AsksFor(f.state, handled, kind) && Answers(branches, kind, i)
    ensures EndsWith(env, fuel, branches[i], handled, f, w,
                     Drive(env, fuel, PlanStep(env, Result(branches, loc), idx, rest, f, w)))
  {
    BranchSelected(branches, f.state, handled, kind, i);
    hide RunPipeline, ErrorType, SelectBranch, AsksFor, Answers;
  }

  /** With neither a branch of the kind nor a default it ends the pipeline with the state as it is. */
  lemma ResultPassesThrough(env: Env, fuel: nat, branches: seq<ResultBranch>, loc: Location, idx: nat, rest: seq<Step>,
                            f: Frame, w: World, handled: Option<string>, kind: BranchType)
    requires AsksFor(f.state, handled, kind) && Lacks(branches, kind) && Lacks(branches, DefaultBranch)
    ensures Drive(env, fuel, PlanStep(env, Result(branches, loc), idx, rest, f, w))
         == Ended(Return(Response(f.state, f.contentType, f.status), f, w))
  {
    AskedType(f.state, handled, kind);
    LackingNone(branches, kind);
    LackingNone(branches, DefaultBranch);
    hide ErrorType, FirstOf, AsksFor;
  }

  // ----- which steps run -----

  /** A step runs on a state without a typed error, handling nothing from then on, and on a typed error only while that
      very error is being handled. */
  lemma StepRuns(env: Env, fuel: nat, steps: seq<Step>, idx: nat, f: Frame, w: World, handled: Option<string>,
                 kind: BranchType)
    requires steps != [] && AsksFor(f.state, handled, kind)
    requires handled.None? || handled == f.handled || steps[0].Result?
    ensures var g := f.(handled := if handled == f.handled then handled else None);
            var r := Drive(env, fuel, PlanStep(env, steps[0], idx, steps[1..], g, w));
            && (r.OutOfFuel? ==> Loop(env, fuel, steps, idx, f, w) == LoopStuck)
            && (r.Ended? ==>
                  match r.end
                  case Raised(e, v) => Loop(env, fuel, steps, idx, f, w) == LoopRaised(e, v)
                  case Return(out, h, v) => Loop(env, fuel, steps, idx, f, w) == LoopDone(out, h, v)
                  case Continue(h, v) =>
                    Loop(env, fuel, steps, idx, f, w) == Loop(env, fuel, steps[1..], idx + 1, h, v))
  {
    AskedType(f.state, handled, kind);
    hide PlanStep, Drive, ErrorType, AsksFor;
  }

  /** A step other than `result` is passed over, without an effect, when the state carries an error that is not being
      handled. */
  lemma StepSkipped(env: Env, fuel: nat, steps: seq<Step>, idx: nat, f: Frame, w: World, t: string)
    requires steps != [] && Carries(f.state, t) && f.handled != Some(t) && !steps[0].Result?
    ensures Loop(env, fuel, steps, idx, f, w) == Loop(env, fuel, steps[1..], idx + 1, f.(handled := None), w)
  {
    ErrorTypeMeans(f.state, t);
    hide PlanStep, Drive, ErrorType, Carries;
  }
}

/** The interpreter runs a task the moment it is spawned. That is one schedule among many: for machines with stores of
    their own, every schedule that ends gives the interpreter's result, and one always does. */
module Adequacy {
  import opened Base
  import opened JsonValues
  import opened Ast
  import opened Responses
  import opened Runtime
  import opened Steps
  import opened Interpreter
  import Frames
  import opened Scheduling
  import opened Settlement
  import opened Footprints
  import opened Isolation

  /** The parts of the world a task could have changed are as they were. */
  predicate Kept(w: World, v: World) {
    v.cache == w.cache && v.history == w.history && v.shared.outside == w.shared.outside
  }

  // ----- plans do not look at the task registry -----

  function InTasks(w: World, tasks: map<string, Task>): World { w.(tasks := tasks) }

  function EndInTasks(end: StepEnd, tasks: map<string, Task>): StepEnd {
    match end
    case Continue(f, w) => Continue(f, InTasks(w, tasks))
    case Return(out, f, w) => Return(out, f, InTasks(w, tasks))
    case Raised(e, w) => Raised(e, InTasks(w, tasks))
  }

  function PlanInTasks(p: Plan, tasks: map<string, Task>): Plan {
    match p
    case Done(end) => Done(EndInTasks(end, tasks))
    case Call(pipeline, input, h, k, w) => Call(pipeline, input, h, k, InTasks(w, tasks))
    case Fork(name, job, f, w) => Fork(name, job, f, InTasks(w, tasks))
    case Gather(names, input, pending, w) => Gather(names, input, pending, InTasks(w, tasks))
  }

  function RunInTasks(r: Run, tasks: map<string, Task>): Run {
    match r
    case Stuck => Stuck
    case Failed(e, w) => Failed(e, InTasks(w, tasks))
    case Value(out, w) => Value(out, InTasks(w, tasks))
  }

  predicate QuietEnd(end: StepEnd) {
    match end
    case Continue(f, _) => f.saves == []
    case Return(_, f, _) => f.saves == []
    case Raised(_, _) => true
  }

  predicate QuietPlan(p: Plan) {
    match p
    case Done(end) => QuietEnd(end)
    case Call(_, _, _, k, _) => Frames.KontFrame(k).saves == []
    case Fork(_, _, f, _) => f.saves == []
    case Gather(_, _, pending, _) => pending.frame.saves == []
  }

  /** A plan made in `w`: it touched nothing shared, registered nothing, and is the same under any registry. */
  predicate Local(p: Plan, q: Plan, w: World, tasks: map<string, Task>) {
    && q == PlanInTasks(p, tasks)
    && QuietPlan(p) && Kept(w, PlanWorld(p)) && PlanWorld(p).tasks == w.tasks
  }

  lemma RecoverLocal(s: Step, f: Frame, e: WebPipeError, w: World, tasks: map<string, Task>)
    requires s.Regular? && f.saves == []
    ensures Local(Done(Recover(s, f, e, w)), Done(Recover(s, f, e, InTasks(w, tasks))), w, tasks)
  {
    hide MiddlewareFailure, WithLocation, OverrideErrorType, MiddlewareErrorValue;
  }

  lemma FinishLocal(env: Env, p: Pending, r: Response, w: World, tasks: map<string, Task>)
    requires p.step.Regular? && p.frame.saves == []
    ensures Local(Done(FinishRegular(env, p, r, None, w)), Done(FinishRegular(env, p, r, None, InTasks(w, tasks))), w,
                  tasks)
  {
    hide ApplyResult, NextContentType, OverrideErrorType;
  }

  lemma StandardLocal(env: Env, p: Pending, idx: nat, config: string, input: Json, w: World, tasks: map<string, Task>)
    requires p.step.Regular? && p.frame.saves == []
    requires QuietCall(env, Invocation(p.name, p.step.args, config, p.target.name))
    ensures Local(Done(PlanStandard(env, p, idx, config, input, w)),
                  Done(PlanStandard(env, p, idx, config, input, InTasks(w, tasks))), w, tasks)
  {
    hide FinishRegular, Recover, CacheLookup;
    var out := env.invoke(Invocation(p.name, p.step.args, config, p.target.name), input, w.shared);
    var v := w.(shared := out.shared);
    match out
    case MiddlewareErr(e, _) => RecoverLocal(p.step, p.frame, e, v, tasks);
    case MiddlewareOk(state, ct, _) =>
      FinishLocal(env, p, Response(state, if ct.Some? then ct.value else JSON_TYPE, None), v, tasks);
  }

  lemma JoinLocal(env: Env, p: Pending, config: string, input: Json, w: World, tasks: map<string, Task>)
    requires p.step.Regular? && p.frame.saves == []
    ensures Local(PlanJoin(env, p, config, input, w), PlanJoin(env, p, config, input, InTasks(w, tasks)), w, tasks)
  {
    hide JoinNames, Recover;
    var names := JoinNames(env, p.step, config);
    if names.Err? { RecoverLocal(p.step, p.frame, names.error, w, tasks); }
  }

  lemma NamedLocal(env: Env, p: Pending, config: string, input: Json, w: World, tasks: map<string, Task>)
    requires p.step.Regular? && p.frame.saves == []
    ensures Local(PlanNamed(env, p, config, input, w), PlanNamed(env, p, config, input, InTasks(w, tasks)), w, tasks)
  {
    hide ResolveNamed, CallInput, Recover, Trim;
    RecoverLocal(p.step, p.frame, PipelineNotFound(Trim(config)), w, tasks);
    var arg := CallInput(env, p.step.args, input);
    if arg.Err? { RecoverLocal(p.step, p.frame, arg.error, w, tasks); }
  }

  lemma RegularLocal(env: Env, s: Step, idx: nat, rest: seq<Step>, f: Frame, w: World, tasks: map<string, Task>)
    requires IsolatedStep(env, s) && s.Regular? && f.saves == []
    ensures Local(PlanRegular(env, s, idx, rest, f, w), PlanRegular(env, s, idx, rest, f, InTasks(w, tasks)), w, tasks)
  {
    ConfigFixed(env, s, f.state);
    hide PlanStandard, PlanJoin, PlanNamed, PlanJob, ShouldExecute, IsLast, ResolveConfig, TargetName, StepConfig,
         QuietCall;
    if ShouldExecute(s.condition, env, w.shared, f.state) && ConditionArgument(s.condition, "async").None? {
      var name := EffectiveName(env, s);
      var r := ResolveConfig(env, s.loc, name, RawConfig(env, s), f.state);
      var w1 := if name == "pipeline" then LogCall(w, r.config, r.input) else w;
      var f1 := if r.autoNamed then f.(state := r.input) else f;
      var p := Pending(s, name, TargetName(s.condition, f1.state, r.autoNamed), IsLast(rest, env, w.shared, f.state),
                       f1);
      if name == "join" { JoinLocal(env, p, r.config, r.input, w1, tasks); }
      else if name == "pipeline" { NamedLocal(env, p, r.config, r.input, w1, tasks); }
      else { StandardLocal(env, p, idx, r.config, r.input, w1, tasks); }
    }
  }

  lemma StepLocal(env: Env, s: Step, idx: nat, rest: seq<Step>, f: Frame, w: World, tasks: map<string, Task>)
    requires IsolatedStep(env, s) && f.saves == []
    ensures Local(PlanStep(env, s, idx, rest, f, w), PlanStep(env, s, idx, rest, f, InTasks(w, tasks)), w, tasks)
  {
    hide PlanRegular, SelectBranch, SelectCase, GetPath, SetPath, ParsePath;
    if s.Regular? { RegularLocal(env, s, idx, rest, f, w, tasks); }
  }

  lemma KontLocal(env: Env, k: Kont, r: Run, tasks: map<string, Task>)
    requires WellFormed(k) && !r.Stuck? && Frames.KontFrame(k).saves == []
    ensures Local(Finish(env, k, r), Finish(env, k, RunInTasks(r, tasks)), r.w, tasks)
  {
    hide FinishRegular, Recover, SetPath;
    if k.KNamed? {
      if r.Failed? { RecoverLocal(k.pending.step, k.pending.frame, r.error, r.w, tasks); }
      else { FinishLocal(env, k.pending, r.out, r.w, tasks); }
    }
  }

  // ----- reaching -----

  /** Whatever `b` computes, `a` computes with `m` more steps. */
  ghost predicate Reaches(env: Env, a: Node, b: Node, m: nat) {
    forall k: nat :: Eval(env, k, b).Some? ==> Eval(env, k + m, a) == Eval(env, k, b)
  }

  lemma ReachesTrans(env: Env, a: Node, b: Node, c: Node, m: nat, n: nat)
    requires Reaches(env, a, b, m) && Reaches(env, b, c, n)
    ensures Reaches(env, a, c, n + m)
  {
    hide Eval;
    forall k: nat | Eval(env, k, c).Some? ensures Eval(env, k + (n + m), a) == Eval(env, k, c) {
      assert Eval(env, k + n, b) == Eval(env, k, c);
      assert k + n + m == k + (n + m);
    }
  }

  lemma ReachesSelf(env: Env, n: Node)
    ensures Reaches(env, n, n, 0)
  {
  }

  lemma ReachesStep(env: Env, n: Node)
    ensures Reaches(env, n, LocalStep(env, n), 1)
  {
    hide Eval, LocalStep;
    forall k: nat | Eval(env, k, LocalStep(env, n)).Some?
      ensures Eval(env, k + 1, n) == Eval(env, k, LocalStep(env, n)) {
      LocalStepBack(env, k, n);
    }
  }

  /** A join of a task that ends gets its result. */
  lemma ReachesAwait(env: Env, n: Node, bound: nat)
    requires n.c.control.Joining? && n.c.control.names != [] && n.c.control.names[0] in n.kids
    requires Eval(env, bound, n.kids[n.c.control.names[0]].node).Some?
    ensures var name := n.c.control.names[0];
            var r := Eval(env, bound, n.kids[name].node).value;
            Reaches(env, n, Node(Resume(n.c, Some(Handed(r, n.kids[name].loc))), n.kids - {name}), bound + 1)
  {
    hide Resume, Handed;
    var name := n.c.control.names[0];
    var r := Eval(env, bound, n.kids[name].node).value;
    var m := Node(Resume(n.c, Some(Handed(r, n.kids[name].loc))), n.kids - {name});
    assert Next(env, n.c) == Await(name);
    forall k: nat | Eval(env, k, m).Some? ensures Eval(env, k + (bound + 1), n) == Eval(env, k, m) {
      EvalMore(env, bound, k + bound, n.kids[name].node);
      EvalMore(env, k, k + bound, m);
    }
  }

  // ----- the registry of the interpreter and the handles of the machine -----

  ghost predicate Yields(env: Env, kid: Kid, t: Task) {
    exists bound: nat :: Eval(env, bound, kid.node).Some? && JobOutcome(Eval(env, bound, kid.node).value, kid.loc) == t
  }

  ghost predicate Related(env: Env, tasks: map<string, Task>, kids: map<string, Kid>) {
    kids.Keys == tasks.Keys && forall name :: name in tasks ==> Yields(env, kids[name], tasks[name])
  }

  predicate ProperStack(stack: seq<Suspended>) { forall i :: 0 <= i < |stack| ==> WellFormed(stack[i].kont) }

  function JoiningNode(names: seq<string>, results: map<string, Json>, input: Json, pending: Pending, w: World,
                       steps: seq<Step>, idx: nat, stack: seq<Suspended>, kids: map<string, Kid>): Node
    requires pending.step.Regular? && ProperStack(stack)
  {
    Node(Config(Joining(names, results, input, pending, w, steps, idx), stack), kids)
  }

  /** Collecting the named tasks one await at a time. */
  lemma {:induction false} JoinReaches(env: Env, names: seq<string>, results: map<string, Json>, input: Json,
                                       pending: Pending,
                                       w: World, steps: seq<Step>, idx: nat, stack: seq<Suspended>,
                                       tasks: map<string, Task>, kids: map<string, Kid>)
    returns (m: nat, left: map<string, Kid>)
    requires pending.step.Regular? && ProperStack(stack) && Related(env, tasks, kids) && results.Keys !! tasks.Keys
    ensures Related(env, Remaining(names, tasks), left)
    ensures Reaches(env, JoiningNode(names, results, input, pending, w, steps, idx, stack, kids),
                    JoiningNode([], Collect(names, tasks) + results, input, pending, w, steps, idx, stack, left), m)
    decreases |names|
  {
    hide Eval, Next, Handed, JobOutcome, Reaches, Yields, LocalStep;
    var n := JoiningNode(names, results, input, pending, w, steps, idx, stack, kids);
    if names == [] {
      m, left := 0, kids;
      assert Collect(names, tasks) + results == results;
      ReachesSelf(env, n);
    } else {
      var name := names[0];
      CollectKeys(names[1..], tasks - {name});
      if name in tasks {
        var got := results[name := TaskJson(tasks[name])];
        var next := JoiningNode(names[1..], got, input, pending, w, steps, idx, stack, kids - {name});
        var bound := AwaitTask(env, n, tasks[name]);
        m, left := JoinReaches(env, names[1..], got, input, pending, w, steps, idx, stack, tasks - {name},
                               kids - {name});
        assert Collect(names[1..], tasks - {name}) + got == Collect(names, tasks) + results;
        var all := Collect(names, tasks) + results;
        hide Collect, Remaining;
        ReachesTrans(env, n, next, JoiningNode([], all, input, pending, w, steps, idx, stack, left), bound, m);
        m := m + bound;
      } else {
        AbsentAwait(env, n);
        ReachesStep(env, n);
        assert tasks - {name} == tasks;
        var next := JoiningNode(names[1..], results, input, pending, w, steps, idx, stack, kids);
        m, left := JoinReaches(env, names[1..], results, input, pending, w, steps, idx, stack, tasks, kids);
        var all := Collect(names, tasks) + results;
        hide Collect, Remaining;
        ReachesTrans(env, n, next, JoiningNode([], all, input, pending, w, steps, idx, stack, left), 1, m);
        m := m + 1;
      }
    }
  }

  lemma AwaitTask(env: Env, n: Node, t: Task) returns (m: nat)
    requires n.c.control.Joining? && n.c.control.names != [] && n.c.control.names[0] in n.kids
    requires Yields(env, n.kids[n.c.control.names[0]], t)
    ensures Reaches(env, n, Node(Resume(n.c, Some(TaskJson(t))), n.kids - {n.c.control.names[0]}), m)
  {
    hide Eval, Reaches, Resume, JobOutcome, Next;
    var kid := n.kids[n.c.control.names[0]];
    var bound: nat :| Eval(env, bound, kid.node).Some? && JobOutcome(Eval(env, bound, kid.node).value, kid.loc) == t;
    ReachesAwait(env, n, bound);
    m := bound + 1;
  }

  lemma AbsentAwait(env: Env, n: Node)
    requires n.c.control.Joining? && n.c.control.names != [] && n.c.control.names[0] !in n.kids
    ensures LocalStep(env, n) == n.(c := Resume(n.c, None))
  {
  }

  // ----- the machine follows the interpreter -----

  /** The machine's worlds carry no registry of their own. */
  const NO_TASKS: map<string, Task> := map[]

  function BareEnd(end: StepEnd): StepEnd { EndInTasks(end, NO_TASKS) }
  function BareRun(r: Run): Run { RunInTasks(r, NO_TASKS) }

  function DoingNode(p: Plan, steps: seq<Step>, idx: nat, stack: seq<Suspended>, kids: map<string, Kid>): Node
    requires Sound(p) && ProperStack(stack)
  {
    Node(Config(Doing(PlanInTasks(p, NO_TASKS), steps, idx), stack), kids)
  }

  function EndNode(env: Env, end: StepEnd, steps: seq<Step>, idx: nat, stack: seq<Suspended>,
                   kids: map<string, Kid>): Node
    requires ProperStack(stack)
  {
    Node(AfterEnd(env, BareEnd(end), steps, idx, stack), kids)
  }

  function BackNode(r: Run, stack: seq<Suspended>, kids: map<string, Kid>): Node
    requires !r.Stuck? && ProperStack(stack)
  {
    Node(Config(Back(BareRun(r)), stack), kids)
  }

  function EnterNode(p: Pipeline, input: Json, handled: Option<string>, w: World, stack: seq<Suspended>,
                     kids: map<string, Kid>): Node
    requires ProperStack(stack)
  {
    Node(Config(Enter(p, input, handled, InTasks(w, NO_TASKS)), stack), kids)
  }

  function AtNode(steps: seq<Step>, idx: nat, f: Frame, w: World, stack: seq<Suspended>, kids: map<string, Kid>): Node
    requires ProperStack(stack)
  {
    Node(Config(At(steps, idx, f, InTasks(w, NO_TASKS)), stack), kids)
  }

  lemma DoneReaches(env: Env, end: StepEnd, steps: seq<Step>, idx: nat, stack: seq<Suspended>, kids: map<string, Kid>)
    requires ProperStack(stack)
    ensures Reaches(env, DoingNode(Done(end), steps, idx, stack, kids), EndNode(env, end, steps, idx, stack, kids), 1)
  {
    hide Reaches;
    ReachesStep(env, DoingNode(Done(end), steps, idx, stack, kids));
  }

  lemma CallStep(env: Env, p: Plan, steps: seq<Step>, idx: nat, stack: seq<Suspended>, kids: map<string, Kid>)
    requires Sound(p) && p.Call? && ProperStack(stack)
    ensures ProperStack([Suspended(p.kont, steps, idx)] + stack)
    ensures LocalStep(env, DoingNode(p, steps, idx, stack, kids))
         == EnterNode(p.pipeline, p.input, p.handled, p.w, [Suspended(p.kont, steps, idx)] + stack, kids)
  {
  }

  lemma BackStep(env: Env, r: Run, k: Kont, steps: seq<Step>, idx: nat, stack: seq<Suspended>, kids: map<string, Kid>)
    requires !r.Stuck? && WellFormed(k) && ProperStack(stack) && Frames.KontFrame(k).saves == []
    ensures ProperStack([Suspended(k, steps, idx)] + stack)
    ensures LocalStep(env, BackNode(r, [Suspended(k, steps, idx)] + stack, kids))
         == DoingNode(Finish(env, k, r), steps, idx, stack, kids)
  {
    hide Finish;
    KontLocal(env, k, r, NO_TASKS);
    assert ([Suspended(k, steps, idx)] + stack)[1..] == stack;
  }

  lemma HaltedNode(env: Env, r: Run, kids: map<string, Kid>)
    requires !r.Stuck?
    ensures Eval(env, 0, BackNode(r, [], kids)) == Some(BareRun(r))
    ensures forall loc :: JobOutcome(BareRun(r), loc) == JobOutcome(r, loc)
  {
  }

  lemma {:induction false} DriveReaches(env: Env, fuel: nat, p: Plan, steps: seq<Step>, idx: nat, stack: seq<Suspended>,
                                        kids: map<string, Kid>)
    returns (m: nat, left: map<string, Kid>)
    requires TamePlan(env, p) && Sound(p) && QuietPlan(p) && ProperStack(stack)
    requires Related(env, PlanWorld(p).tasks, kids) && Drive(env, fuel, p).Ended?
    ensures var end := Drive(env, fuel, p).end;
            && QuietEnd(end) && Kept(PlanWorld(p), EndWorld(end)) && Related(env, EndWorld(end).tasks, left)
            && Reaches(env, DoingNode(p, steps, idx, stack, kids), EndNode(env, end, steps, idx, stack, left), m)
    decreases fuel, 1, Rank(p)
  {
    hide Reaches, Related, Eval, LocalStep, DoingNode, EndNode, BackNode, EnterNode, Finish, FinishRegular, Isolated,
         QuietCall, TameKont;
    var n := DoingNode(p, steps, idx, stack, kids);
    match p
    case Done(end) =>
      DoneReaches(env, end, steps, idx, stack, kids);
      m, left := 1, kids;
    case Call(pipeline, input, h, k, w) =>
      var inner := [Suspended(k, steps, idx)] + stack;
      CallStep(env, p, steps, idx, stack, kids);
      ReachesStep(env, n);
      var entered := EnterNode(pipeline, input, h, w, inner, kids);
      var m1, kids1 := RunReaches(env, fuel - 1, pipeline, input, h, w, inner, kids);
      var r := RunPipeline(env, fuel - 1, pipeline, input, h, w);
      var back := BackNode(r, inner, kids1);
      ReachesTrans(env, n, entered, back, 1, m1);
      BackStep(env, r, k, steps, idx, stack, kids1);
      ReachesStep(env, back);
      KontLocal(env, k, r, NO_TASKS);
      FinishTame(env, k, r);
      var next := Finish(env, k, r);
      var doing := DoingNode(next, steps, idx, stack, kids1);
      ReachesTrans(env, n, back, doing, m1 + 1, 1);
      var m2: nat;
      m2, left := DriveReaches(env, fuel, next, steps, idx, stack, kids1);
      ReachesTrans(env, n, doing, EndNode(env, Drive(env, fuel, p).end, steps, idx, stack, left), 1 + (m1 + 1), m2);
      m := m2 + (1 + (m1 + 1));
    case Fork(_, _, _, _) =>
      left := ForkReaches(env, fuel, p, steps, idx, stack, kids);
      m := 1;
    case Gather(_, _, _, _) =>
      m, left := GatherReaches(env, fuel, p, steps, idx, stack, kids);
  }

  lemma GatherReaches(env: Env, fuel: nat, p: Plan, steps: seq<Step>, idx: nat, stack: seq<Suspended>,
                      kids: map<string, Kid>)
    returns (m: nat, left: map<string, Kid>)
    requires p.Gather? && Sound(p) && QuietPlan(p) && ProperStack(stack) && Related(env, p.w.tasks, kids)
    ensures var r := Drive(env, fuel, p);
            && r.Ended? && QuietEnd(r.end) && Kept(p.w, EndWorld(r.end)) && Related(env, EndWorld(r.end).tasks, left)
            && Reaches(env, DoingNode(p, steps, idx, stack, kids), EndNode(env, r.end, steps, idx, stack, left), m)
  {
    hide Reaches, Related, Eval, FinishRegular;
    var n := DoingNode(p, steps, idx, stack, kids);
    var bare := InTasks(p.w, NO_TASKS);
    var joining := Node(Config(Joining(p.names, map[], p.input, p.pending, bare, steps, idx), stack), kids);
    ReachesStep(env, n);
    var m1: nat;
    m1, left := JoinReaches(env, p.names, map[], p.input, p.pending, bare, steps, idx, stack, p.w.tasks, kids);
    var results := Collect(p.names, p.w.tasks);
    assert results + map[] == results;
    var joined := Node(Config(Joining([], results, p.input, p.pending, bare, steps, idx), stack), left);
    ReachesTrans(env, n, joining, joined, 1, m1);
    ReachesStep(env, joined);
    var w1 := p.w.(tasks := Remaining(p.names, p.w.tasks));
    var value := Response(Insert(p.input, "async", Object(results)), JSON_TYPE, None);
    FinishLocal(env, p.pending, value, w1, NO_TASKS);
    var end := FinishRegular(env, p.pending, value, None, w1);
    assert InTasks(w1, NO_TASKS) == bare;
    ReachesTrans(env, n, joined, DoingNode(Done(end), steps, idx, stack, left), m1 + 1, 1);
    DoneReaches(env, end, steps, idx, stack, left);
    ReachesTrans(env, n, DoingNode(Done(end), steps, idx, stack, left), EndNode(env, end, steps, idx, stack, left),
                 1 + (m1 + 1), 1);
    m := 1 + (1 + (m1 + 1));
  }

  lemma RelatedSpawn(env: Env, tasks: map<string, Task>, kids: map<string, Kid>, name: string, t: Task, kid: Kid,
                     bound: nat)
    requires Related(env, tasks, kids)
    requires Eval(env, bound, kid.node).Some? && JobOutcome(Eval(env, bound, kid.node).value, kid.loc) == t
    ensures Related(env, tasks[name := t], kids[name := kid])
  {
    hide Eval, JobOutcome;
    assert Yields(env, kid, t);
  }

  lemma CallIsolated(env: Env, call: Invocation, input: Json, w: World)
    requires QuietCall(env, call)
    ensures Kept(w, RunCall(env, call, input, w).w)
    ensures Eval(env, 1, Node(Config(Calling(call, input, w), []), map[])) == Some(RunCall(env, call, input, w))
  {
    hide CacheLookup;
  }

  lemma ForkReaches(env: Env, fuel: nat, p: Plan, steps: seq<Step>, idx: nat, stack: seq<Suspended>,
                    kids: map<string, Kid>)
    returns (left: map<string, Kid>)
    requires TamePlan(env, p) && p.Fork? && QuietPlan(p) && ProperStack(stack)
    requires Related(env, p.w.tasks, kids) && Drive(env, fuel, p).Ended?
    ensures var end := Drive(env, fuel, p).end;
            && QuietEnd(end) && Kept(p.w, EndWorld(end)) && Related(env, EndWorld(end).tasks, left)
            && Reaches(env, DoingNode(p, steps, idx, stack, kids), EndNode(env, end, steps, idx, stack, left), 1)
    decreases fuel, 0, 0
  {
    hide Reaches, Related, Eval, FinishRegular, Finish, Isolated, QuietCall, RunCall, JobOutcome, Show;
    var n := DoingNode(p, steps, idx, stack, kids);
    var tw := TaskWorld(p.w);
    ReachesStep(env, n);
    match p.job
    case JobFailed(e) =>
      var kid := Kid(Node(Config(Back(Failed(e, tw)), []), map[]), NOWHERE);
      FailedKid(env, e, tw);
      RelatedSpawn(env, p.w.tasks, kids, p.name, TaskError(Show(e)), kid, 0);
      left := kids[p.name := kid];
    case JobCall(call, input, loc) =>
      var kid := Kid(Node(Config(Calling(call, input, tw), []), map[]), loc);
      CallIsolated(env, call, input, tw);
      RelatedSpawn(env, p.w.tasks, kids, p.name, JobOutcome(RunCall(env, call, input, tw), loc), kid, 1);
      left := kids[p.name := kid];
    case JobPipeline(pipeline, input, loc) =>
      var kid := Kid(EnterNode(pipeline, input, None, tw, [], map[]), loc);
      var bound := TaskReaches(env, fuel - 1, pipeline, input, tw);
      RelatedSpawn(env, p.w.tasks, kids, p.name, JobOutcome(RunPipeline(env, fuel - 1, pipeline, input, None, tw),
                                                            loc), kid, bound);
      left := kids[p.name := kid];
  }

  lemma FailedKid(env: Env, e: WebPipeError, w: World)
    ensures Eval(env, 0, Node(Config(Back(Failed(e, w)), []), map[])) == Some(Failed(e, w))
    ensures JobOutcome(Failed(e, w), NOWHERE) == TaskError(Show(e))
  {
  }

  lemma TaskReaches(env: Env, fuel: nat, p: Pipeline, input: Json, w: World) returns (bound: nat)
    requires Isolated(env, p) && w.tasks == NO_TASKS && !RunPipeline(env, fuel, p, input, None, w).Stuck?
    ensures var r := RunPipeline(env, fuel, p, input, None, w);
            var out := Eval(env, bound, EnterNode(p, input, None, w, [], map[]));
            && Kept(w, r.w)
            && out == Some(BareRun(r)) && forall loc :: JobOutcome(out.value, loc) == JobOutcome(r, loc)
    decreases fuel, 4, 0
  {
    hide Eval, RunPipeline, Isolated, JobOutcome, EnterNode, BackNode;
    var left: map<string, Kid>;
    assert Related(env, w.tasks, map[]);
    bound, left := RunReaches(env, fuel, p, input, None, w, [], map[]);
    var r := RunPipeline(env, fuel, p, input, None, w);
    HaltedNode(env, r, left);
    assert Eval(env, 0 + bound, EnterNode(p, input, None, w, [], map[])) == Eval(env, 0, BackNode(r, [], left));
  }

  lemma AtStep(env: Env, steps: seq<Step>, idx: nat, f: Frame, w: World, stack: seq<Suspended>, kids: map<string, Kid>)
    requires TameSteps(env, steps) && f.saves == [] && ProperStack(stack)
    ensures steps == [] ==>
              LocalStep(env, AtNode(steps, idx, f, w, stack, kids))
                == BackNode(Value(Response(f.state, f.contentType, f.status), w), stack, kids)
    ensures steps != [] && Skips(steps[0], Recheck(f)) ==>
              LocalStep(env, AtNode(steps, idx, f, w, stack, kids))
                  == AtNode(steps[1..], idx + 1, Recheck(f), w, stack, kids)
    ensures steps != [] && !Skips(steps[0], Recheck(f)) ==>
              var plan := PlanStep(env, steps[0], idx, steps[1..], Recheck(f), w);
              && LocalStep(env, AtNode(steps, idx, f, w, stack, kids)) == DoingNode(plan, steps[1..], idx, stack, kids)
              && QuietPlan(plan) && Kept(w, PlanWorld(plan)) && PlanWorld(plan).tasks == w.tasks && TamePlan(env, plan)
  {
    hide PlanStep, TamePlan, IsolatedStep, Parts, RuntimeTarget, Isolated;
    if steps != [] {
      assert TameStep(env, steps[0]);
      StepPlanTame(env, steps[0], idx, steps[1..], Recheck(f), w);
      StepLocal(env, steps[0], idx, steps[1..], Recheck(f), w, NO_TASKS);
    }
  }

  lemma EndNodes(env: Env, end: StepEnd, steps: seq<Step>, idx: nat, stack: seq<Suspended>, kids: map<string, Kid>)
    requires ProperStack(stack) && QuietEnd(end)
    ensures end.Continue? ==>
              EndNode(env, end, steps, idx, stack, kids) == AtNode(steps, idx + 1, end.frame, end.w, stack, kids)
    ensures end.Return? ==> EndNode(env, end, steps, idx, stack, kids) == BackNode(Value(end.out, end.w), stack, kids)
    ensures end.Return? ==> Settle(env, end.frame.saves, end.out, end.w) == end.w
    ensures end.Raised? ==>
              EndNode(env, end, steps, idx, stack, kids) == BackNode(Failed(end.error, end.w), stack, kids)
  {
  }

  lemma {:induction false} LoopReaches(env: Env, fuel: nat, steps: seq<Step>, idx: nat, f: Frame, w: World,
                                       stack: seq<Suspended>,
                                       kids: map<string, Kid>)
    returns (m: nat, left: map<string, Kid>)
    requires TameSteps(env, steps) && f.saves == [] && ProperStack(stack) && Related(env, w.tasks, kids)
    requires !Loop(env, fuel, steps, idx, f, w).LoopStuck?
    ensures var r := Close(env, Loop(env, fuel, steps, idx, f, w));
            && !r.Stuck? && Kept(w, r.w) && Related(env, r.w.tasks, left)
            && Reaches(env, AtNode(steps, idx, f, w, stack, kids), BackNode(r, stack, left), m)
    decreases fuel, 2, |steps|
  {
    hide Reaches, Related, TameStep, TamePlan, PlanStep, Drive, LocalStep, AtNode, BackNode, DoingNode, EndNode;
    var n := AtNode(steps, idx, f, w, stack, kids);
    var g := Recheck(f);
    AtStep(env, steps, idx, f, w, stack, kids);
    ReachesStep(env, n);
    if steps == [] {
      m, left := 1, kids;
    } else if Skips(steps[0], g) {
      var m1: nat;
      m1, left := LoopReaches(env, fuel, steps[1..], idx + 1, g, w, stack, kids);
      ReachesTrans(env, n, AtNode(steps[1..], idx + 1, g, w, stack, kids),
                   BackNode(Close(env, Loop(env, fuel, steps[1..], idx + 1, g, w)), stack, left), 1, m1);
      m := m1 + 1;
    } else {
      var plan := PlanStep(env, steps[0], idx, steps[1..], g, w);
      var m1, kids1 := DriveReaches(env, fuel, plan, steps[1..], idx, stack, kids);
      var end := Drive(env, fuel, plan).end;
      var ended := EndNode(env, end, steps[1..], idx, stack, kids1);
      ReachesTrans(env, n, DoingNode(plan, steps[1..], idx, stack, kids), ended, 1, m1);
      EndNodes(env, end, steps[1..], idx, stack, kids1);
      if end.Continue? {
        var m2: nat;
        m2, left := LoopReaches(env, fuel, steps[1..], idx + 1, end.frame, end.w, stack, kids1);
        ReachesTrans(env, n, ended, BackNode(Close(env, Loop(env, fuel, steps[1..], idx + 1, end.frame, end.w)),
                                             stack, left), m1 + 1, m2);
        m := m2 + (m1 + 1);
      } else {
        m, left := m1 + 1, kids1;
      }
    }
  }

  /** From entering a pipeline the machine reaches the interpreter's result, with related handles. */
  lemma {:induction false} RunReaches(env: Env, fuel: nat, p: Pipeline, input: Json, handled: Option<string>, w: World,
                                      stack: seq<Suspended>, kids: map<string, Kid>)
    returns (m: nat, left: map<string, Kid>)
    requires Isolated(env, p) && ProperStack(stack) && Related(env, w.tasks, kids)
    requires !RunPipeline(env, fuel, p, input, handled, w).Stuck?
    ensures var r := RunPipeline(env, fuel, p, input, handled, w);
            && Kept(w, r.w) && Related(env, r.w.tasks, left)
            && Reaches(env, EnterNode(p, input, handled, w, stack, kids), BackNode(r, stack, left), m)
    decreases fuel, 3, 0
  {
    hide Reaches, Related, Isolated, TameSteps, Loop;
    IsolatedSteps(env, p);
    var n := EnterNode(p, input, handled, w, stack, kids);
    var at := AtNode(p.steps, 0, Start(input, handled), w, stack, kids);
    assert LocalStep(env, n) == at;
    ReachesStep(env, n);
    var m1: nat;
    m1, left := LoopReaches(env, fuel, p.steps, 0, Start(input, handled), w, stack, kids);
    ReachesTrans(env, n, at, BackNode(RunPipeline(env, fuel, p, input, handled, w), stack, left), 1, m1);
    m := m1 + 1;
  }

  // ----- every schedule of detached machines -----

  /** Same output or same error. */
  predicate SameResult(a: Run, b: Run) {
    match a
    case Stuck => b.Stuck?
    case Failed(e, _) => b.Failed? && b.error == e
    case Value(out, _) => b.Value? && b.out == out
  }

  /** Every schedule that brings the main run to an end gives the interpreter's result. */
  lemma DetachedAgrees(env: Env, fuel: nat, p: Pipeline, input: Json, w: World, schedule: seq<seq<string>>, r: Run)
    requires Isolated(env, p) && w.tasks == map[] && !RunPipeline(env, fuel, p, input, None, w).Stuck?
    requires Halted(RunSchedule(env, Node(Config(Enter(p, input, None, w), []), map[]), schedule), r)
    ensures SameResult(RunPipeline(env, fuel, p, input, None, w), r)
  {
    hide RunSchedule, StepAt, RunPipeline, Isolated;
    var n := Node(Config(Enter(p, input, None, w), []), map[]);
    assert EnterNode(p, input, None, w, [], map[]) == n;
    var bound := TaskReaches(env, fuel, p, input, w);
    ScheduleBack(env, 0, n, schedule);
    EvalMore(env, bound, bound + |schedule|, n);
    EvalMore(env, |schedule|, bound + |schedule|, n);
  }

  function Lift(name: string, schedule: seq<seq<string>>): seq<seq<string>> {
    if schedule == [] then [] else [[name] + schedule[0]] + Lift(name, schedule[1..])
  }

  lemma {:induction false} LiftedRun(env: Env, n: Node, name: string, schedule: seq<seq<string>>)
    requires name in n.kids
    ensures RunSchedule(env, n, Lift(name, schedule)) == WithKid(n, name, RunSchedule(env, n.kids[name].node, schedule))
    decreases |schedule|
  {
    hide LocalStep;
    if schedule != [] {
      var first := [name] + schedule[0];
      assert first[1..] == schedule[0];
      var m := WithKid(n, name, StepAt(env, n.kids[name].node, schedule[0]));
      assert StepAt(env, n, first) == m;
      assert Lift(name, schedule)[1..] == Lift(name, schedule[1..]);
      LiftedRun(env, m, name, schedule[1..]);
      assert m.kids[name := m.kids[name].(node := RunSchedule(env, m.kids[name].node, schedule[1..]))]
          == n.kids[name := n.kids[name].(node := RunSchedule(env, m.kids[name].node, schedule[1..]))];
    } else {
      assert n.kids[name := n.kids[name]] == n.kids;
    }
  }

  lemma {:induction false} ScheduleAppend(env: Env, n: Node, a: seq<seq<string>>, b: seq<seq<string>>)
    ensures RunSchedule(env, n, a + b) == RunSchedule(env, RunSchedule(env, n, a), b)
    decreases |a|
  {
    hide StepAt;
    if a == [] {
      assert a + b == b;
    } else {
      assert (a + b)[1..] == a[1..] + b;
      ScheduleAppend(env, StepAt(env, n, a[0]), a[1..], b);
    }
  }

  /** What a node computes, some schedule brings about: run each task when it is joined. */
  lemma {:induction false} EvalSchedule(env: Env, bound: nat, n: Node) returns (schedule: seq<seq<string>>)
    requires Eval(env, bound, n).Some?
    ensures Halted(RunSchedule(env, n, schedule), Eval(env, bound, n).value)
    decreases bound
  {
    hide Next, Resume, Handed;
    var a := Next(env, n.c);
    if a.Halt? {
      schedule := [];
    } else if a.Await? && a.name in n.kids {
      var kid := n.kids[a.name];
      var before := EvalSchedule(env, bound - 1, kid.node);
      var r := Eval(env, bound - 1, kid.node).value;
      var done := RunSchedule(env, kid.node, before);
      LiftedRun(env, n, a.name, before);
      var ready := WithKid(n, a.name, done);
      HaltedIsHalt(env, done, r);
      var next := Node(Resume(n.c, Some(Handed(r, kid.loc))), n.kids - {a.name});
      assert ready.kids - {a.name} == n.kids - {a.name};
      assert LocalStep(env, ready) == next;
      var after := EvalSchedule(env, bound - 1, next);
      schedule := Lift(a.name, before) + ([[]] + after);
      ScheduleAppend(env, n, Lift(a.name, before), [[]] + after);
      assert ([[]] + after)[1..] == after;
    } else {
      var after := EvalSchedule(env, bound - 1, LocalStep(env, n));
      schedule := [[]] + after;
      assert schedule[1..] == after;
    }
  }

  lemma HaltedIsHalt(env: Env, n: Node, r: Run)
    requires Halted(n, r)
    ensures Next(env, n.c) == Halt(r)
  {
  }

  /** And one schedule always does bring it to that end. */
  lemma DetachedEnds(env: Env, fuel: nat, p: Pipeline, input: Json, w: World)
    requires Isolated(env, p) && w.tasks == map[] && !RunPipeline(env, fuel, p, input, None, w).Stuck?
    ensures exists schedule, r :: Halted(RunSchedule(env, Node(Config(Enter(p, input, None, w), []), map[]),
                                                     schedule), r)
                                  && SameResult(RunPipeline(env, fuel, p, input, None, w), r)
  {
    hide RunSchedule, StepAt, RunPipeline, Isolated, Eval;
    var n := Node(Config(Enter(p, input, None, w), []), map[]);
    assert EnterNode(p, input, None, w, [], map[]) == n;
    var bound := TaskReaches(env, fuel, p, input, w);
    var schedule := EvalSchedule(env, bound, n);
    var r := BareRun(RunPipeline(env, fuel, p, input, None, w));
    assert Halted(RunSchedule(env, n, schedule), r) && SameResult(RunPipeline(env, fuel, p, input, None, w), r);
  }
}

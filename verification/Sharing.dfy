/** Schedule independence on the shared store: if middleware keeps to its own request, no schedule ever changes
    the store, and every schedule that ends gives the interpreter's result. If it does not, the schedule can
    decide the outcome. */
module Sharing {
  import opened Base
  import opened JsonValues
  import opened Ast
  import opened Responses
  import opened Runtime
  import opened Steps
  import opened Interpreter
  import Frames
  import opened Scheduling
  import opened Adequacy
  import opened Settlement
  import opened Systems
  import opened TaskTrees
  import opened Footprints
  import opened Isolation

  // ----- nobody touches the store -----

  /** No frame of the machine has a save to settle, and whatever it may still run is isolated. */
  ghost predicate Tame(env: Env, c: Machine) {
    && (forall i :: 0 <= i < |c.stack| ==> TameSuspended(env, c.stack[i]))
    && TameControl(env, c.control)
  }

  ghost predicate TameSuspended(env: Env, p: Suspended) {
    Frames.KontFrame(p.kont).saves == [] && TameKont(env, p.kont) && TameSteps(env, p.steps)
  }

  ghost predicate TameControl(env: Env, c: Control) {
    match c
    case Enter(p, _, _, _) => Isolated(env, p)
    case At(steps, _, f, _) => f.saves == [] && TameSteps(env, steps)
    case Doing(plan, steps, _) => QuietPlan(plan) && TamePlan(env, plan) && TameSteps(env, steps)
    case Joining(_, _, _, pending, _, steps, _) => pending.frame.saves == [] && TameSteps(env, steps)
    case Calling(call, _, _) => QuietCall(env, call)
    case Back(_) => true
  }

  /** Every machine is tame and has seen the store as it is. */
  ghost predicate Calm(env: Env, procs: seq<Proc>, s: Store) {
    forall i :: 0 <= i < |procs| ==> Tame(env, procs[i].c) && StoreOf(procs[i].c) == s
  }

  lemma LoadSame(c: Machine)
    ensures Load(c, StoreOf(c)) == c
  {
  }

  lemma PlanQuiet(env: Env, s: Step, idx: nat, rest: seq<Step>, f: Frame, w: World)
    requires TameStep(env, s) && f.saves == []
    ensures var plan := PlanStep(env, s, idx, rest, f, w);
            QuietPlan(plan) && TamePlan(env, plan) && PlanStore(plan) == StoreIn(w)
  {
    StepPlanTame(env, s, idx, rest, f, w);
    hide PlanStep, TamePlan, IsolatedStep, Parts, RuntimeTarget;
    StepLocal(env, s, idx, rest, f, w, w.tasks);
  }

  lemma FinishQuiet(env: Env, k: Kont, r: Run)
    requires WellFormed(k) && !r.Stuck? && Frames.KontFrame(k).saves == [] && TameKont(env, k)
    ensures var plan := Finish(env, k, r); QuietPlan(plan) && TamePlan(env, plan) && PlanStore(plan) == StoreIn(r.w)
  {
    FinishTame(env, k, r);
    hide Finish, TamePlan, TameKont;
    KontLocal(env, k, r, r.w.tasks);
  }

  lemma JoinQuiet(env: Env, p: Pending, input: Json, results: map<string, Json>, w: World)
    requires p.step.Regular? && p.frame.saves == []
    ensures var end := FinishJoin(env, p, input, results, w); QuietEnd(end) && EndStore(end) == StoreIn(w)
  {
    hide FinishRegular;
    FinishLocal(env, p, Response(Insert(input, "async", Object(results)), JSON_TYPE, None), w, w.tasks);
  }

  lemma CallQuiet(env: Env, call: Invocation, input: Json, w: World)
    requires QuietCall(env, call)
    ensures StoreIn(RunCall(env, call, input, w).w) == StoreIn(w)
  {
    hide RunCall;
    CallIsolated(env, call, input, w);
  }

  lemma EndQuiet(env: Env, end: StepEnd, steps: seq<Step>, idx: nat, stack: seq<Suspended>)
    requires forall i :: 0 <= i < |stack| ==> WellFormed(stack[i].kont) && TameSuspended(env, stack[i])
    requires QuietEnd(end) && TameSteps(env, steps)
    ensures var c := AfterEnd(env, end, steps, idx, stack); Tame(env, c) && StoreOf(c) == EndStore(end)
  {
    hide TameSuspended, TameSteps;
  }

  lemma ForkQuiet(env: Env, name: string, job: Job, f: Frame, w: World, steps: seq<Step>, idx: nat,
                  stack: seq<Suspended>)
    requires forall i :: 0 <= i < |stack| ==> WellFormed(stack[i].kont) && TameSuspended(env, stack[i])
    requires f.saves == [] && TameJob(env, job) && TameSteps(env, steps)
    ensures var a := ForkAction(name, job, f, w, steps, idx, stack);
            && Tame(env, a.child) && Tame(env, a.next)
            && StoreOf(a.child) == StoreOf(a.next) == StoreIn(w)
  {
    hide TameSuspended, TameSteps, Isolated, QuietCall;
  }

  lemma AtCalm(env: Env, c: Machine)
    requires c.control.At? && Tame(env, c)
    ensures var d := Next(env, c); d.Move? && Tame(env, d.next) && StoreOf(d.next) == StoreOf(c)
  {
    hide PlanStep, TameSuspended, TameStep, TamePlan, Settle;
    var At(steps, idx, f, w) := c.control;
    if steps == [] {
      assert TameSteps(env, []);
      EndQuiet(env, Return(Response(f.state, f.contentType, f.status), f, w), [], idx, c.stack);
    } else if !Skips(steps[0], Recheck(f)) {
      PlanQuiet(env, steps[0], idx, steps[1..], Recheck(f), w);
    }
  }

  lemma DoingCalm(env: Env, c: Machine)
    requires c.control.Doing? && Tame(env, c)
    ensures match Next(env, c)
            case Move(d) => Tame(env, d) && StoreOf(d) == StoreOf(c)
            case Spawn(_, child, _, d) =>
              Tame(env, child) && Tame(env, d) && StoreOf(child) == StoreOf(d) == StoreOf(c)
            case _ => false
  {
    hide Settle, TameSteps, Isolated, TameKont, TameJob, ForkAction, AfterEnd;
    var Doing(plan, steps, idx) := c.control;
    match plan
    case Done(end) => EndQuiet(env, end, steps, idx, c.stack);
    case Fork(name, job, f, w) => ForkQuiet(env, name, job, f, w, steps, idx, c.stack);
    case _ =>
  }

  /** A step of a tame machine leaves it tame and the store as it was. */
  lemma NextCalm(env: Env, c: Machine)
    requires Tame(env, c)
    ensures match Next(env, c)
            case Move(d) => Tame(env, d) && StoreOf(d) == StoreOf(c)
            case Spawn(_, child, _, d) =>
              Tame(env, child) && Tame(env, d) && StoreOf(child) == StoreOf(d) == StoreOf(c)
            case _ => true
  {
    if c.control.At? {
      AtCalm(env, c);
      hide Next, Tame, StoreOf;
    } else if c.control.Doing? {
      DoingCalm(env, c);
      hide Next, Tame, StoreOf;
    } else {
      hide Finish, FinishJoin, RunCall, Isolated, QuietCall, TameStep, TameKont, TamePlan, AfterEnd;
      match c.control
      case Enter(p, _, _, _) => IsolatedSteps(env, p);
      case Calling(call, input, w) => CallQuiet(env, call, input, w);
      case Joining(names, results, input, pending, w, _, _) =>
        if names == [] {
          JoinQuiet(env, pending, input, results, w);
          DoneTame(env, FinishJoin(env, pending, input, results, w));
        }
      case Back(r) =>
        if c.stack != [] {
          assert TameSuspended(env, c.stack[0]);
          FinishQuiet(env, c.stack[0].kont, r);
        }
    }
  }

  lemma DoneTame(env: Env, end: StepEnd)
    ensures TamePlan(env, Done(end))
  {
  }

  lemma ResumeQuiet(env: Env, c: Machine, found: Option<Json>)
    requires c.control.Joining? && c.control.names != [] && Tame(env, c)
    ensures Tame(env, Resume(c, found)) && StoreOf(Resume(c, found)) == StoreOf(c)
  {
    hide TameSuspended, TameSteps;
  }

  lemma StepCalm(env: Env, sys: System, id: nat)
    requires Calm(env, sys.procs, sys.store)
    ensures var t := StepOf(env, sys, id); t.store == sys.store && Calm(env, t.procs, t.store)
  {
    hide Next, Load, StoreOf, Resume, Handed, Tame;
    if id < |sys.procs| {
      var c := sys.procs[id].c;
      LoadSame(c);
      NextCalm(env, c);
      match Next(env, c)
      case Halt(_) =>
      case Move(_) =>
      case Spawn(name, child, loc, d) =>
      case Await(name) =>
        ResumeQuiet(env, c, None);
        if name in sys.procs[id].handles && sys.procs[id].handles[name].id < |sys.procs| {
          var h := sys.procs[id].handles[name];
          var a := Next(env, sys.procs[h.id].c);
          if a.Halt? { ResumeQuiet(env, c, Some(Handed(a.result, h.loc))); }
        }
    }
  }

  // ----- shared steps are steps of the tree -----

  /** Calm, and with its handles in order. */
  ghost predicate Fine(env: Env, sys: System) {
    sys.procs != [] && Calm(env, sys.procs, sys.store) && Owned(sys.procs, sys.awaited)
  }

  lemma StepFine(env: Env, sys: System, id: nat)
    requires Fine(env, sys)
    ensures var t := StepOf(env, sys, id);
            && Fine(env, t) && t.store == sys.store && Upward(sys.procs) && Upward(t.procs)
            && ChangedAt(sys.procs, t.procs, id)
  {
    StepCalm(env, sys, id);
    StepOwned(env, sys, id);
    hide Next, Load, StoreOf, Resume, Handed, Calm;
    OwnedUpward(sys.procs, sys.awaited);
    OwnedUpward(StepOf(env, sys, id).procs, StepOf(env, sys, id).awaited);
    hide Owned, Upward;
  }

  lemma OwnedUpward(procs: seq<Proc>, awaited: seq<nat>)
    requires Owned(procs, awaited)
    ensures Upward(procs)
  {
  }

  lemma LocalTree(env: Env, sys: System, id: nat)
    requires Fine(env, sys) && id < |sys.procs|
    ensures var t := StepOf(env, sys, id);
            && Upward(sys.procs) && Upward(t.procs) && |sys.procs| <= |t.procs|
            && Tree(t.procs, id) == LocalStep(env, Tree(sys.procs, id))
  {
    var p := sys.procs[id];
    StepFine(env, sys, id);
    assert StoreOf(p.c) == sys.store;
    LoadSame(p.c);
    KidsAbove(sys.procs, id);
    hide Next, Load, StoreOf, Resume, Handed, Fine, Upward;
    match Next(env, p.c)
    case Halt(_) =>
    case Move(d) => MovedTree(sys.procs, id, d);
    case Spawn(name, child, loc, d) =>
      SpawnedTree(sys.procs, StepOf(env, sys, id).procs, id, name, child, loc, d);
    case Await(name) => AwaitTree(env, sys, id, name);
  }

  lemma AwaitTree(env: Env, sys: System, id: nat, name: string)
    requires id < |sys.procs| && Upward(sys.procs) && Upward(StepOf(env, sys, id).procs)
    requires Load(sys.procs[id].c, sys.store) == sys.procs[id].c && Next(env, sys.procs[id].c) == Await(name)
    ensures |sys.procs| <= |StepOf(env, sys, id).procs|
    ensures Tree(StepOf(env, sys, id).procs, id) == LocalStep(env, Tree(sys.procs, id))
  {
    var p := sys.procs[id];
    KidsAbove(sys.procs, id);
    hide Next, Load, StoreOf, Resume, Handed, Upward;
    if name !in p.handles {
      MovedTree(sys.procs, id, Resume(p.c, None));
    } else {
      var h := p.handles[name];
      KidMachine(sys.procs, id, name);
      var a := Next(env, sys.procs[h.id].c);
      if a.Halt? { TakenTree(sys.procs, id, name, Resume(p.c, Some(Handed(a.result, h.loc)))); }
    }
  }

  lemma KidMachine(procs: seq<Proc>, id: nat, name: string)
    requires id < |procs| && Upward(procs) && name in procs[id].handles
    ensures procs[id].handles[name].id < |procs|
    ensures name in Tree(procs, id).kids && Tree(procs, id).kids[name].loc == procs[id].handles[name].loc
    ensures Tree(procs, id).kids[name].node.c == procs[procs[id].handles[name].id].c
  {
    KidsAbove(procs, id);
  }

  /** A step of the shared system is a step of the main run's tree, or shows nothing there. */
  lemma TreeStep(env: Env, sys: System, id: nat) returns (path: Option<seq<string>>)
    requires Fine(env, sys)
    ensures var t := StepOf(env, sys, id);
            && Fine(env, t) && t.store == sys.store && Upward(sys.procs) && Upward(t.procs)
            && Tree(t.procs, 0) == if path.Some? then StepAt(env, Tree(sys.procs, 0), path.value)
               else Tree(sys.procs, 0)
  {
    StepFine(env, sys, id);
    var t := StepOf(env, sys, id);
    assert sys.procs != [] && t.procs != [];
    hide StepOf, LocalStep, StepAt;
    if id >= |sys.procs| {
      path := None;
      StepNobody(env, sys, id);
    } else if p :| IdAt(sys.procs, 0, p) == Some(id) {
      path := Some(p);
      LocalTree(env, sys, id);
      OnPath(env, sys.procs, sys.awaited, t.procs, id, 0, p);
    } else {
      path := None;
      OffPath(sys.procs, t.procs, id, 0);
    }
  }

  lemma StepNobody(env: Env, sys: System, id: nat)
    requires id >= |sys.procs|
    ensures StepOf(env, sys, id) == sys
  {
  }

  lemma LaunchFine(env: Env, p: Pipeline, input: Json, w: World)
    requires Isolated(env, p)
    ensures var sys := Launch(p, input, w);
            && Fine(env, sys) && Upward(sys.procs)
            && Tree(sys.procs, 0) == Node(Config(Enter(p, input, None, w), []), map[])
  {
  }

  /** No schedule changes the store, and each is a schedule of the tree. */
  lemma {:induction false} TreeRun(env: Env, sys: System, schedule: seq<nat>) returns (paths: seq<seq<string>>)
    requires Fine(env, sys)
    ensures var t := RunOf(env, sys, schedule);
            && Fine(env, t) && t.store == sys.store && Upward(sys.procs) && Upward(t.procs)
            && Tree(t.procs, 0) == RunSchedule(env, Tree(sys.procs, 0), paths)
  {
    OwnedUpward(sys.procs, sys.awaited);
    assert sys.procs != [];
    hide StepOf, Fine, StepAt, Upward, Owned;
    if schedule == [] {
      paths := [];
    } else {
      var before := TreeRun(env, sys, schedule[..|schedule| - 1]);
      var mid := RunOf(env, sys, schedule[..|schedule| - 1]);
      var path := TreeStep(env, mid, schedule[|schedule| - 1]);
      if path.Some? {
        paths := before + [path.value];
        SnocSchedule(env, Tree(sys.procs, 0), before, path.value);
      } else {
        paths := before;
      }
    }
  }

  lemma SnocSchedule(env: Env, n: Node, paths: seq<seq<string>>, path: seq<string>)
    ensures RunSchedule(env, n, paths + [path]) == StepAt(env, RunSchedule(env, n, paths), path)
  {
    hide StepAt;
    ScheduleAppend(env, n, paths, [path]);
    var m := RunSchedule(env, n, paths);
    assert RunSchedule(env, m, [path]) == RunSchedule(env, StepAt(env, m, path), [path][1..]);
  }

  /** And every schedule of the tree is one of the shared system. */
  lemma {:induction false} NumberedRun(env: Env, sys: System, paths: seq<seq<string>>) returns (schedule: seq<nat>)
    requires Fine(env, sys)
    ensures var t := RunOf(env, sys, schedule);
            && Fine(env, t) && Upward(sys.procs) && Upward(t.procs)
            && Tree(t.procs, 0) == RunSchedule(env, Tree(sys.procs, 0), paths)
  {
    OwnedUpward(sys.procs, sys.awaited);
    assert sys.procs != [];
    hide StepOf, StepAt, LocalStep, Upward, Owned, Calm;
    if paths == [] {
      schedule := [];
    } else {
      var front, path := paths[..|paths| - 1], paths[|paths| - 1];
      assert paths == front + [path];
      SnocSchedule(env, Tree(sys.procs, 0), front, path);
      var before := NumberedRun(env, sys, front);
      var mid := RunOf(env, sys, before);
      var id := IdAt(mid.procs, 0, path);
      if id.None? {
        schedule := before;
        AbsentPath(env, mid.procs, 0, path);
      } else {
        schedule := before + [id.value];
        assert schedule[..|schedule| - 1] == before;
        PathRises(mid.procs, 0, path);
        StepFine(env, mid, id.value);
        LocalTree(env, mid, id.value);
        OnPath(env, mid.procs, mid.awaited, StepOf(env, mid, id.value).procs, id.value, 0, path);
      }
    }
  }

  // ----- the theorems -----

  /** For middleware that keeps to its own request, no schedule changes the shared store. */
  lemma StoreUntouched(env: Env, p: Pipeline, input: Json, w: World, schedule: seq<nat>)
    requires Isolated(env, p)
    ensures RunOf(env, Launch(p, input, w), schedule).store == StoreIn(w)
  {
    hide Isolated, RunOf;
    LaunchFine(env, p, input, w);
    var _ := TreeRun(env, Launch(p, input, w), schedule);
  }

  lemma OverHalted(sys: System, r: Run)
    requires Upward(sys.procs) && sys.procs != []
    ensures Over(sys, r) <==> Halted(Tree(sys.procs, 0), r)
  {
  }

  /** Schedule independence on the shared store: any two schedules that bring the main run to an end bring it to
      the same end. */
  lemma SchedulesAgree(env: Env, p: Pipeline, input: Json, w: World, one: seq<nat>, two: seq<nat>, r: Run, s: Run)
    requires Isolated(env, p)
    requires Over(RunOf(env, Launch(p, input, w), one), r) && Over(RunOf(env, Launch(p, input, w), two), s)
    ensures r == s
  {
    hide Isolated, RunOf, RunSchedule;
    LaunchFine(env, p, input, w);
    var sys := Launch(p, input, w);
    var first := TreeRun(env, sys, one);
    var second := TreeRun(env, sys, two);
    OverHalted(RunOf(env, sys, one), r);
    OverHalted(RunOf(env, sys, two), s);
    hide Launch, Fine, Upward, Over, Halted;
    DetachedSchedulesAgree(env, Tree(sys.procs, 0), first, second, r, s);
  }

  /** Every schedule that ends the main run gives the interpreter's output or error. */
  lemma EveryScheduleAgrees(env: Env, fuel: nat, p: Pipeline, input: Json, w: World, schedule: seq<nat>, r: Run)
    requires Isolated(env, p) && w.tasks == map[] && !RunPipeline(env, fuel, p, input, None, w).Stuck?
    requires Over(RunOf(env, Launch(p, input, w), schedule), r)
    ensures SameResult(RunPipeline(env, fuel, p, input, None, w), r)
  {
    hide Isolated, RunOf, RunSchedule, RunPipeline;
    LaunchFine(env, p, input, w);
    var sys := Launch(p, input, w);
    var paths := TreeRun(env, sys, schedule);
    OverHalted(RunOf(env, sys, schedule), r);
    hide Launch, Fine, Upward, Over, Halted;
    DetachedAgrees(env, fuel, p, input, w, paths, r);
  }

  /** And one schedule always does bring it to that end. */
  lemma SomeScheduleEnds(env: Env, fuel: nat, p: Pipeline, input: Json, w: World) returns (schedule: seq<nat>, r: Run)
    requires Isolated(env, p) && w.tasks == map[] && !RunPipeline(env, fuel, p, input, None, w).Stuck?
    ensures Over(RunOf(env, Launch(p, input, w), schedule), r)
    ensures SameResult(RunPipeline(env, fuel, p, input, None, w), r)
  {
    hide Isolated, RunOf, RunSchedule, RunPipeline;
    LaunchFine(env, p, input, w);
    var sys := Launch(p, input, w);
    DetachedEnds(env, fuel, p, input, w);
    var paths, run :| Halted(RunSchedule(env, Node(Config(Enter(p, input, None, w), []), map[]), paths), run)
                      && SameResult(RunPipeline(env, fuel, p, input, None, w), run);
    r := run;
    schedule := NumberedRun(env, sys, paths);
    OverHalted(RunOf(env, sys, schedule), r);
  }
}

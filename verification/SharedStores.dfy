/** Why middleware must keep to its own request: two calls of one that leaves a mark outside. */
module SharedStores {
  import opened Base
  import opened JsonValues
  import opened Tags
  import opened Ast
  import opened Responses
  import opened Runtime
  import opened Steps
  import opened Interpreter
  import opened Scheduling
  import opened Systems
  import opened Footprints
  import opened Isolation

  const AT: Location := Location(None, 1, 1, 1, None)

  /** The same call as a task and as a step. */
  const TASK: Step := Regular("mark", [], "", true, Some(Single(Tag("async", false, ["t"]))), None, AT)
  const STEP: Step := Regular("mark", [], "", true, None, None, AT)
  const BOTH: Pipeline := Pipeline([TASK, STEP])

  /** "mark" returns what is outside and leaves a mark there. */
  function MarkEnv(limits: Limits): Env {
    Env((call, state, shared: Shared) => MiddlewareOk(shared.outside, None, shared.(outside := Bool(true))),
        (filter, input) => Err("none"), (filter, input) => None, text => None,
        map["mark" := Render], map[], map[], map[], None,
        config => CachePolicy(false, 0, None), (step, config, template, input) => "", limits, n => n)
  }

  function Outside(v: Json): World { World(Shared(map[], map[], map[], None, Null, v), map[], EMPTY, []) }

  const BEGIN: Frame := Start(Null, None)

  const CALL: Job := JobCall(Invocation("mark", [], "", None), Null, AT)

  lemma Bare(limits: Limits, v: Json)
    ensures ResolveConfig(MarkEnv(limits), AT, "mark", "", v) == Resolved("", v, false)
    ensures EffectiveName(MarkEnv(limits), TASK) == "mark" && RawConfig(MarkEnv(limits), TASK) == ""
    ensures EffectiveName(MarkEnv(limits), STEP) == "mark" && RawConfig(MarkEnv(limits), STEP) == ""
  {
  }

  lemma TaskPlan(limits: Limits, v: Json)
    ensures PlanStep(MarkEnv(limits), TASK, 0, [STEP], BEGIN, Outside(v)) == Fork("t", CALL, BEGIN, Outside(v))
  {
    Bare(limits, Null);
    hide ResolveConfig;
    assert ShouldExecute(TASK.condition, MarkEnv(limits), Outside(v).shared, Null);
    assert ConditionArgument(TASK.condition, "async") == Some("t");
  }

  lemma StepPlan(limits: Limits, v: Json)
    ensures PlanStep(MarkEnv(limits), STEP, 1, [], BEGIN, Outside(v))
         == Done(Continue(BEGIN.(state := v), Outside(Bool(true))))
  {
    var env := MarkEnv(limits);
    Bare(limits, Null);
    hide ResolveConfig;
    var p := Pending(STEP, "mark", Target(None, false), true, BEGIN);
    assert TargetName(None, Null, false) == Target(None, false);
    assert PlanStandard(env, p, 1, "", Null, Outside(v)) == Continue(BEGIN.(state := v), Outside(Bool(true)));
    hide PlanStandard;
  }

  function StoreWith(v: Json): Store { Store(EMPTY, [], v) }

  const MARKED: Store := StoreWith(Bool(true))

  /** The system right after the task was spawned. */
  const SPAWNED: System :=
    System([Proc(Config(At([STEP], 1, BEGIN, Outside(Null)), []), map["t" := Handle(1, AT)]),
            Proc(Config(Calling(CALL.call, Null, Outside(Null)), []), map[])],
           StoreWith(Null), [])

  lemma SpawnFirst(limits: Limits)
    ensures RunOf(MarkEnv(limits), Launch(BOTH, Null, Outside(Null)), [0, 0, 0]) == SPAWNED
  {
    var env := MarkEnv(limits);
    var s0 := Launch(BOTH, Null, Outside(Null));
    var s1 := System([Proc(Config(At([TASK, STEP], 0, BEGIN, Outside(Null)), []), map[])], StoreWith(Null), []);
    var s2 := System([Proc(Config(Doing(Fork("t", CALL, BEGIN, Outside(Null)), [STEP], 0), []), map[])],
                     StoreWith(Null), []);
    assert StepOf(env, s0, 0) == s1;
    TaskPlan(limits, Null);
    assert [TASK, STEP][1..] == [STEP];
    assert Recheck(BEGIN) == BEGIN && !Skips(TASK, BEGIN);
    hide PlanStep;
    assert StepOf(env, s1, 0) == s2;
    assert TaskWorld(Outside(Null)) == Outside(Null);
    assert StepOf(env, s2, 0) == SPAWNED;
    hide StepOf;
    ThreeSteps(env, s0, 0, 0, 0);
  }

  lemma ThreeSteps(env: Env, sys: System, a: nat, b: nat, c: nat)
    ensures RunOf(env, sys, [a, b, c]) == StepOf(env, StepOf(env, StepOf(env, sys, a), b), c)
  {
    hide StepOf;
    assert [a, b, c][..2] == [a, b] && [a, b][..1] == [a] && [a][..0] == [];
    assert RunOf(env, sys, [a]) == StepOf(env, sys, a);
    assert RunOf(env, sys, [a, b]) == StepOf(env, StepOf(env, sys, a), b);
  }

  /** Main run and task after the spawn, on a store with `v` outside. */
  function Spawned(child: Proc, v: Json): System { System([SPAWNED.procs[0], child], StoreWith(v), []) }

  function Marked(c: Machine, child: Proc): System { System([Proc(c, SPAWNED.procs[0].handles), child], MARKED, []) }

  function Called(v: Json): Machine {
    Config(Doing(Done(Continue(BEGIN.(state := v), Outside(Bool(true)))), [], 1), [])
  }

  lemma MainCalls(limits: Limits, child: Proc, v: Json)
    ensures StepOf(MarkEnv(limits), Spawned(child, v), 0) == Marked(Called(v), child)
  {
    var c := Config(At([STEP], 1, BEGIN, Outside(v)), []);
    assert Load(SPAWNED.procs[0].c, StoreWith(v)) == c;
    CallNext(limits, v);
    hide Next, MarkEnv, Load;
    assert StoreOf(Called(v)) == MARKED;
  }

  lemma CallNext(limits: Limits, v: Json)
    ensures Next(MarkEnv(limits), Config(At([STEP], 1, BEGIN, Outside(v)), [])) == Move(Called(v))
  {
    StepPlan(limits, v);
    assert [STEP][1..] == [];
    assert Recheck(BEGIN) == BEGIN && !Skips(STEP, BEGIN);
    hide PlanStep;
  }

  lemma MainReturns(limits: Limits, child: Proc, v: Json)
    ensures var t := StepOf(MarkEnv(limits), StepOf(MarkEnv(limits), Marked(Called(v), child), 0), 0);
            Over(t, Value(Response(v, JSON_TYPE, None), Outside(Bool(true))))
  {
    var at := Config(At([], 2, BEGIN.(state := v), Outside(Bool(true))), []);
    assert StepOf(MarkEnv(limits), Marked(Called(v), child), 0) == Marked(at, child);
  }

  /** From the spawn on, the main run returns what is outside when it makes its call. */
  lemma MainEnds(limits: Limits, child: Proc, v: Json)
    ensures Over(RunOf(MarkEnv(limits), Spawned(child, v), [0, 0, 0]),
                 Value(Response(v, JSON_TYPE, None), Outside(Bool(true))))
  {
    hide StepOf, Spawned, Marked, Called;
    MainCalls(limits, child, v);
    MainReturns(limits, child, v);
    ThreeSteps(MarkEnv(limits), Spawned(child, v), 0, 0, 0);
  }

  /** Two schedules of the same run, one of which lets the task go first, end it with different outputs. */
  lemma ScheduleDecides(limits: Limits) returns (one: seq<nat>, two: seq<nat>, r: Run, s: Run)
    ensures var sys := Launch(BOTH, Null, Outside(Null));
            && Over(RunOf(MarkEnv(limits), sys, one), r) && Over(RunOf(MarkEnv(limits), sys, two), s)
            && r.Value? && s.Value? && r.out.body == Null && s.out.body == Bool(true)
    ensures !Isolated(MarkEnv(limits), BOTH)
  {
    var env := MarkEnv(limits);
    var sys := Launch(BOTH, Null, Outside(Null));
    SpawnFirst(limits);
    one := [0, 0, 0] + [0, 0, 0];
    RunAppend(env, sys, [0, 0, 0], [0, 0, 0]);
    MainEnds(limits, SPAWNED.procs[1], Null);
    r := Value(Response(Null, JSON_TYPE, None), Outside(Bool(true)));
    assert SPAWNED == System([SPAWNED.procs[0], SPAWNED.procs[1]], StoreWith(Null), []);
    var done := Proc(Config(Back(Value(Response(Null, JSON_TYPE, None), Outside(Bool(true)))), []), map[]);
    TaskEnds(limits, done);
    two := [0, 0, 0] + [1] + [0, 0, 0];
    RunAppend(env, sys, [0, 0, 0], [1]);
    RunAppend(env, sys, [0, 0, 0] + [1], [0, 0, 0]);
    MainEnds(limits, done, Bool(true));
    s := Value(Response(Bool(true), JSON_TYPE, None), Outside(Bool(true)));
    hide RunOf, Launch;
    MarkNotIsolated(limits);
  }

  lemma MarkNotIsolated(limits: Limits)
    ensures !Isolated(MarkEnv(limits), BOTH)
  {
    var env := MarkEnv(limits);
    Bare(limits, Null);
    var call := Invocation("mark", [], "", None);
    var shared := Outside(Null).shared;
    assert env.invoke(call, Null, shared).shared.outside != shared.outside;
    assert !QuietCall(env, call);
    assert Invocation(EffectiveName(env, STEP), STEP.args, StepConfig(env, STEP), None) == call;
    hide QuietCall, ResolveConfig, EffectiveName, RawConfig, StepConfig;
    assert !TameStep(env, BOTH.steps[1]);
    if Isolated(env, BOTH) { IsolatedSteps(env, BOTH); }
  }

  // ----- isolation is asked of the program, not of the registry -----

  const ECHO_TASK: Step := Regular("echo", [], "", true, Some(Single(Tag("async", false, ["t"]))), None, AT)
  const ECHO: Step := Regular("echo", [], "", true, None, None, AT)
  const ECHOES: Pipeline := Pipeline([ECHO_TASK, ECHO])

  /** The cache and a middleware that writes outside are registered beside one that hands its input on. */
  function FullEnv(limits: Limits): Env {
    MarkEnv(limits).(
      invoke := (call: Invocation, state, shared: Shared) =>
        MiddlewareOk(state, None, if call.name == "mark" then shared.(outside := Bool(true)) else shared),
      behaviors := map["mark" := Render, "cache" := ReadOnly, "echo" := Render])
  }

  lemma SomeIsolated(limits: Limits)
    ensures var env := FullEnv(limits);
            && IsCache(env, "cache") && !QuietCall(env, CALL.call) && Isolated(env, ECHOES)
  {
    var env := FullEnv(limits);
    var shared := Outside(Null).shared;
    assert env.invoke(CALL.call, Null, shared).shared.outside != shared.outside;
    var follow: Follow := s => RuntimeTarget(env, s);
    var ok: Step -> bool := s => IsolatedStep(env, s);
    forall n: nat ensures Within(follow, ok, n, ECHOES.steps) {
      forall i | 0 <= i < |ECHOES.steps| ensures StepWithin(follow, ok, n, ECHOES.steps[i]) {
        EchoIsolated(limits, ECHOES.steps[i]);
      }
    }
  }

  lemma EchoIsolated(limits: Limits, s: Step)
    requires s == ECHO_TASK || s == ECHO
    ensures IsolatedStep(FullEnv(limits), s) && RuntimeTarget(FullEnv(limits), s) == None && Parts(s) == []
  {
    hide StepConfig;
    assert EffectiveName(FullEnv(limits), s) == "echo";
  }

  lemma TaskEnds(limits: Limits, done: Proc)
    requires done == Proc(Config(Back(Value(Response(Null, JSON_TYPE, None), Outside(Bool(true)))), []), map[])
    ensures RunOf(MarkEnv(limits), SPAWNED, [1]) == System([SPAWNED.procs[0], done], MARKED, [])
  {
    var env := MarkEnv(limits);
    assert [1][..0] == [];
    assert RunCall(env, CALL.call, Null, Outside(Null)) == Value(Response(Null, JSON_TYPE, None), Outside(Bool(true)));
    assert StepOf(env, SPAWNED, 1) == System([SPAWNED.procs[0], done], MARKED, []);
  }

  lemma {:induction false} RunAppend(env: Env, sys: System, a: seq<nat>, b: seq<nat>)
    ensures RunOf(env, sys, a + b) == RunOf(env, RunOf(env, sys, a), b)
  {
    hide StepOf;
    if b == [] {
      assert a + b == a;
    } else {
      assert (a + b)[..|a + b| - 1] == a + b[..|b| - 1];
      RunAppend(env, sys, a, b[..|b| - 1]);
    }
  }
}

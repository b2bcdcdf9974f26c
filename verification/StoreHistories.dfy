/** What any interleaving of a run and its tasks does to the shared store, with any cache and any middleware. */
module StoreHistories {
  import opened Base
  import opened JsonValues
  import opened Ast
  import opened Responses
  import opened Runtime
  import opened Steps
  import opened Interpreter
  import opened Settlement
  import opened Scheduling
  import opened Systems

  /** From `s` to `t` the cache made exactly the recorded operations, at the clock's instants, and every put was of a
      cacheable response. */
  ghost predicate StoreEvolves(env: Env, s: Store, t: Store) { Evolves(env, WithStore(IDLE, s), WithStore(IDLE, t)) }

  lemma WorldsEvolve(env: Env, w: World, v: World)
    requires Evolves(env, w, v)
    ensures StoreEvolves(env, StoreIn(w), StoreIn(v))
  {
  }

  lemma StoreSame(env: Env, s: Store, t: Store)
    requires t.cache == s.cache && t.history == s.history
    ensures StoreEvolves(env, s, t)
  {
    SameCacheEvolves(env, WithStore(IDLE, s), WithStore(IDLE, t));
  }

  lemma LoadedStore(c: Machine, s: Store)
    ensures StoreOf(Load(c, s)) == s
  {
  }

  lemma EndEvolves(env: Env, end: StepEnd, steps: seq<Step>, idx: nat, stack: seq<Suspended>)
    requires forall i :: 0 <= i < |stack| ==> WellFormed(stack[i].kont)
    ensures StoreEvolves(env, EndStore(end), StoreOf(AfterEnd(env, end, steps, idx, stack)))
  {
    hide StoreEvolves, Settle;
    match end
    case Return(out, f, w) =>
      SettleEvolves(env, f.saves, out, w);
      WorldsEvolve(env, w, Settle(env, f.saves, out, w));
    case _ => StoreSame(env, EndStore(end), EndStore(end));
  }

  lemma CallEvolves(env: Env, call: Invocation, input: Json, w: World)
    ensures StoreEvolves(env, StoreIn(w), StoreIn(RunCall(env, call, input, w).w))
  {
    hide StoreEvolves, CacheLookup;
    if IsCache(env, call.name) {
      LookupEvolves(env, None, call.config, input, w);
      WorldsEvolve(env, w, CacheLookup(env, None, call.config, input, w).w);
    } else {
      StoreSame(env, StoreIn(w), StoreIn(RunCall(env, call, input, w).w));
    }
  }

  lemma PlanEvolves(env: Env, w: World, p: Plan)
    requires Evolves(env, w, PlanWorld(p))
    ensures StoreEvolves(env, StoreIn(w), PlanStore(p))
  {
    hide Evolves, StoreEvolves;
    WorldsEvolve(env, w, PlanWorld(p));
  }

  lemma JoinStore(env: Env, p: Pending, input: Json, results: map<string, Json>, w: World)
    requires p.step.Regular?
    ensures EndStore(FinishJoin(env, p, input, results, w)) == StoreIn(w)
  {
    hide ApplyResult, NextContentType, OverrideErrorType;
  }

  /** A small step evolves the store; spawning a task leaves it alone. */
  lemma NextEvolves(env: Env, c: Machine)
    ensures match Next(env, c)
            case Move(d) => StoreEvolves(env, StoreOf(c), StoreOf(d))
            case Spawn(_, _, _, d) => StoreOf(d) == StoreOf(c)
            case _ => true
  {
    hide StoreEvolves, Evolves, PlanStep, Finish, FinishJoin, RunCall, AfterEnd;
    match c.control
    case Enter(_, _, _, w) => StoreSame(env, StoreIn(w), StoreIn(w));
    case Calling(call, input, w) => CallEvolves(env, call, input, w);
    case At(steps, idx, f, w) =>
      if steps == [] {
        EndEvolves(env, Return(Response(f.state, f.contentType, f.status), f, w), [], idx, c.stack);
      } else if Skips(steps[0], Recheck(f)) {
        StoreSame(env, StoreIn(w), StoreIn(w));
      } else {
        StepEvolves(env, steps[0], idx, steps[1..], Recheck(f), w);
        PlanEvolves(env, w, PlanStep(env, steps[0], idx, steps[1..], Recheck(f), w));
      }
    case Doing(plan, steps, idx) =>
      if plan.Done? {
        EndEvolves(env, plan.end, steps, idx, c.stack);
      } else {
        StoreSame(env, PlanStore(plan), PlanStore(plan));
      }
    case Joining(names, results, input, pending, w, _, _) =>
      if names == [] {
        JoinStore(env, pending, input, results, w);
        StoreSame(env, StoreIn(w), StoreIn(w));
      }
    case Back(r) =>
      if c.stack != [] {
        FinishEvolves(env, c.stack[0].kont, r);
        PlanEvolves(env, r.w, Finish(env, c.stack[0].kont, r));
      }
  }

  lemma StepStore(env: Env, sys: System, id: nat)
    ensures StoreEvolves(env, sys.store, StepOf(env, sys, id).store)
  {
    hide Next, Load, StoreOf, Resume, Handed, StoreEvolves;
    StoreSame(env, sys.store, sys.store);
    if id < |sys.procs| {
      LoadedStore(sys.procs[id].c, sys.store);
      NextEvolves(env, Load(sys.procs[id].c, sys.store));
    }
  }

  /** Along every schedule, the shared store goes through recorded operations only, and every put is cacheable. */
  lemma {:induction false} ScheduleEvolves(env: Env, sys: System, schedule: seq<nat>)
    ensures StoreEvolves(env, sys.store, RunOf(env, sys, schedule).store)
  {
    hide StepOf, StoreEvolves;
    if schedule == [] {
      StoreSame(env, sys.store, sys.store);
    } else {
      var before := RunOf(env, sys, schedule[..|schedule| - 1]);
      ScheduleEvolves(env, sys, schedule[..|schedule| - 1]);
      StepStore(env, before, schedule[|schedule| - 1]);
      StoresTrans(env, sys.store, before.store, StepOf(env, before, schedule[|schedule| - 1]).store);
    }
  }

  lemma StoresTrans(env: Env, a: Store, b: Store, c: Store)
    requires StoreEvolves(env, a, b) && StoreEvolves(env, b, c)
    ensures StoreEvolves(env, a, c)
  {
    hide Evolves;
    EvolvesTrans(env, WithStore(IDLE, a), WithStore(IDLE, b), WithStore(IDLE, c));
  }

  /** No interleaving of a run and its tasks ever leaves a typed error or a server error in the cache. */
  lemma SchedulesStoreNoErrors(env: Env, p: Pipeline, input: Json, w: World, schedule: seq<nat>)
    requires CleanCache(w.cache)
    ensures CleanCache(RunOf(env, Launch(p, input, w), schedule).store.cache)
  {
    hide RunOf, CleanCache;
    var sys := Launch(p, input, w);
    ScheduleEvolves(env, sys, schedule);
    var t := RunOf(env, sys, schedule).store;
    var ops := t.history[|w.history|..];
    forall i | 0 <= i < |ops| && ops[i].Put? ensures !Uncacheable(ops[i].response.body, ops[i].response.status) {
      assert ops[i] == t.history[|w.history| + i];
    }
    ReplayClean(env.limits, w.cache, ops);
  }
}

/** Cache effects of whole runs: the cache only changes by recorded operations, every save of a run is settled
    once with that run's own output, and nothing uncacheable is ever stored. */
module Settlement {
  import opened Base
  import opened JsonValues
  import opened Ast
  import opened Lru
  import opened Responses
  import opened CacheTheorems
  import opened Runtime
  import opened StateFolding
  import opened Steps
  import opened Interpreter
  import opened Frames

  // ----- every run is a run of the cache -----

  /** From `w` to `v` the cache made exactly the recorded operations, at the clock's instants, and every put
      was of a cacheable response. */
  ghost predicate Evolves(env: Env, w: World, v: World) {
    && w.history <= v.history
    && v.cache == Replay(env.limits, w.cache, v.history[|w.history|..])
    && forall i :: |w.history| <= i < |v.history| ==>
         && v.history[i].now == env.clock(i)
         && (v.history[i].Put? ==> !Uncacheable(v.history[i].response.body, v.history[i].response.status))
  }

  lemma EvolvesTrans(env: Env, a: World, b: World, c: World)
    requires Evolves(env, a, b) && Evolves(env, b, c)
    ensures Evolves(env, a, c)
  {
    var first := b.history[|a.history|..];
    var second := c.history[|b.history|..];
    assert c.history[|a.history|..] == first + second;
    ReplayAppend(env.limits, a.cache, first, second);
    forall i | |a.history| <= i < |b.history| ensures c.history[i] == b.history[i] {}
  }

  lemma PerformEvolves(env: Env, w: World, op: Op)
    requires op.now == Now(env, w)
    requires op.Put? ==> !Uncacheable(op.response.body, op.response.status)
    ensures Evolves(env, w, Perform(env, w, op))
  {
    var v := Perform(env, w, op);
    assert v.history[|w.history|..] == [op];
    assert [op][..0] == [];
  }

  lemma SameCacheEvolves(env: Env, w: World, v: World)
    requires v.cache == w.cache && v.history == w.history
    ensures Evolves(env, w, v)
  {
    assert v.history[|w.history|..] == [];
  }

  lemma {:induction false} SettleEvolves(env: Env, saves: seq<PendingSave>, r: Response, w: World)
    ensures Evolves(env, w, Settle(env, saves, r, w))
    decreases |saves|
  {
    if saves == [] {
      SameCacheEvolves(env, w, w);
    } else {
      var v := SettleOp(env, saves[0], r, w);
      if v != w {
        PerformEvolves(env, w, if Uncacheable(r.body, r.status) then Clear(saves[0].key, Now(env, w))
                               else Put(saves[0].key, r, Some(saves[0].ttl), Now(env, w)));
      } else {
        SameCacheEvolves(env, w, w);
      }
      SettleEvolves(env, saves[1..], r, v);
      EvolvesTrans(env, w, v, Settle(env, saves, r, w));
    }
  }

  function EndWorld(end: StepEnd): World {
    match end
    case Continue(_, w) => w
    case Return(_, _, w) => w
    case Raised(_, w) => w
  }

  function PlanWorld(p: Plan): World {
    match p
    case Done(end) => EndWorld(end)
    case Call(_, _, _, _, w) => w
    case Fork(_, _, _, w) => w
    case Gather(_, _, _, w) => w
  }

  lemma LookupEvolves(env: Env, stepId: Option<string>, config: string, input: Json, w: World)
    ensures Evolves(env, w, CacheLookup(env, stepId, config, input, w).w)
  {
    var policy := env.cacheSettings(config);
    if policy.enabled {
      var op := Lookup(env.cacheKey(stepId, config, policy.keyTemplate, input), Now(env, w));
      PerformEvolves(env, w, op);
      SameCacheEvolves(env, Perform(env, w, op), CacheLookup(env, stepId, config, input, w).w);
    } else {
      SameCacheEvolves(env, w, w);
    }
  }

  lemma StandardEvolves(env: Env, p: Pending, idx: nat, config: string, input: Json, w: World)
    requires p.step.Regular?
    ensures Evolves(env, w, EndWorld(PlanStandard(env, p, idx, config, input, w)))
  {
    if IsCache(env, p.name) {
      LookupEvolves(env, Some(StepId(p.step, idx)), config, input, w);
    } else {
      SameCacheEvolves(env, w, EndWorld(PlanStandard(env, p, idx, config, input, w)));
    }
  }

  lemma JoinSameCache(env: Env, p: Pending, config: string, input: Json, w: World)
    requires p.step.Regular?
    ensures var v := PlanWorld(PlanJoin(env, p, config, input, w)); v.cache == w.cache && v.history == w.history
  {
  }

  lemma NamedSameCache(env: Env, p: Pending, config: string, input: Json, w: World)
    requires p.step.Regular?
    ensures var v := PlanWorld(PlanNamed(env, p, config, input, w)); v.cache == w.cache && v.history == w.history
  {
  }

  lemma RegularEvolves(env: Env, s: Step, idx: nat, rest: seq<Step>, f: Frame, w: World)
    requires s.Regular?
    ensures Evolves(env, w, PlanWorld(PlanRegular(env, s, idx, rest, f, w)))
  {
    hide PlanStandard, PlanJoin, PlanNamed, PlanJob, Evolves;
    SameCacheEvolves(env, w, w);
    if ShouldExecute(s.condition, env, w.shared, f.state) && ConditionArgument(s.condition, "async").None? {
      var name := EffectiveName(env, s);
      var r := ResolveConfig(env, s.loc, name, RawConfig(env, s), f.state);
      var w1 := if name == "pipeline" then LogCall(w, r.config, r.input) else w;
      var f1 := if r.autoNamed then f.(state := r.input) else f;
      var p := Pending(s, name, TargetName(s.condition, f1.state, r.autoNamed), IsLast(rest, env, w.shared, f.state),
                       f1);
      if name == "join" {
        JoinSameCache(env, p, r.config, r.input, w1);
        SameCacheEvolves(env, w, PlanWorld(PlanJoin(env, p, r.config, r.input, w1)));
      } else if name == "pipeline" {
        NamedSameCache(env, p, r.config, r.input, w1);
        SameCacheEvolves(env, w, PlanWorld(PlanNamed(env, p, r.config, r.input, w1)));
      } else {
        StandardEvolves(env, p, idx, r.config, r.input, w1);
      }
    }
  }

  lemma StepEvolves(env: Env, s: Step, idx: nat, rest: seq<Step>, f: Frame, w: World)
    ensures Evolves(env, w, PlanWorld(PlanStep(env, s, idx, rest, f, w)))
  {
    hide PlanRegular;
    if s.Regular? {
      RegularEvolves(env, s, idx, rest, f, w);
    } else {
      SameCacheEvolves(env, w, PlanWorld(PlanStep(env, s, idx, rest, f, w)));
    }
  }

  lemma FinishEvolves(env: Env, k: Kont, r: Run)
    requires !r.Stuck? && WellFormed(k)
    ensures Evolves(env, r.w, PlanWorld(Finish(env, k, r)))
  {
    SameCacheEvolves(env, r.w, PlanWorld(Finish(env, k, r)));
  }

  lemma TaskEvolves(env: Env, w: World, name: string, t: Task, tw: World)
    requires Evolves(env, TaskWorld(w), tw)
    ensures Evolves(env, w, AfterTask(w, name, t, tw))
  {
  }

  lemma {:induction false} DriveEvolves(env: Env, fuel: nat, p: Plan)
    requires Sound(p)
    ensures var r := Drive(env, fuel, p); r.Ended? ==> Evolves(env, PlanWorld(p), EndWorld(r.end))
    decreases fuel, 0, Rank(p)
  {
    hide Finish, Evolves;
    var r := Drive(env, fuel, p);
    match p
    case Done(end) => SameCacheEvolves(env, PlanWorld(p), EndWorld(end));
    case Gather(names, input, pending, w) => SameCacheEvolves(env, PlanWorld(p), EndWorld(r.end));
    case Call(pipeline, input, handled, k, w) =>
      if r.Ended? {
        RunEvolves(env, fuel - 1, pipeline, input, handled, w);
        var inner := RunPipeline(env, fuel - 1, pipeline, input, handled, w);
        FinishEvolves(env, k, inner);
        DriveEvolves(env, fuel, Finish(env, k, inner));
        EvolvesTrans(env, w, inner.w, PlanWorld(Finish(env, k, inner)));
        EvolvesTrans(env, w, PlanWorld(Finish(env, k, inner)), EndWorld(r.end));
      }
    case Fork(name, JobFailed(e), f, w) => SameCacheEvolves(env, w, EndWorld(r.end));
    case Fork(name, JobCall(call, input, loc), f, w) =>
      var tw := RunCall(env, call, input, TaskWorld(w)).w;
      if IsCache(env, call.name) {
        LookupEvolves(env, None, call.config, input, TaskWorld(w));
      } else {
        SameCacheEvolves(env, TaskWorld(w), tw);
      }
      TaskEvolves(env, w, name, JobOutcome(RunCall(env, call, input, TaskWorld(w)), loc), tw);
    case Fork(name, JobPipeline(pipeline, input, loc), f, w) =>
      if r.Ended? {
        RunEvolves(env, fuel - 1, pipeline, input, None, TaskWorld(w));
        var inner := RunPipeline(env, fuel - 1, pipeline, input, None, TaskWorld(w));
        TaskEvolves(env, w, name, JobOutcome(inner, loc), inner.w);
      }
  }

  ghost predicate LoopEvolved(env: Env, w: World, end: LoopEnd) {
    match end
    case LoopStuck => true
    case LoopRaised(_, v) => Evolves(env, w, v)
    case LoopDone(_, _, v) => Evolves(env, w, v)
  }

  lemma {:induction false} LoopEvolves(env: Env, fuel: nat, steps: seq<Step>, idx: nat, f: Frame, w: World)
    ensures LoopEvolved(env, w, Loop(env, fuel, steps, idx, f, w))
    decreases fuel, 1, |steps|
  {
    hide PlanStep, Drive, Evolves, Settle;
    if steps == [] {
      SameCacheEvolves(env, w, w);
    } else {
      var g := Recheck(f);
      if Skips(steps[0], g) {
        LoopEvolves(env, fuel, steps[1..], idx + 1, g, w);
      } else {
        var plan := PlanStep(env, steps[0], idx, steps[1..], g, w);
        StepEvolves(env, steps[0], idx, steps[1..], g, w);
        DriveEvolves(env, fuel, plan);
        var r := Drive(env, fuel, plan);
        if r.Ended? {
          EvolvesTrans(env, w, PlanWorld(plan), EndWorld(r.end));
          if r.end.Continue? {
            LoopEvolves(env, fuel, steps[1..], idx + 1, r.end.frame, r.end.w);
            var end := Loop(env, fuel, steps[1..], idx + 1, r.end.frame, r.end.w);
            if !end.LoopStuck? { EvolvesTrans(env, w, r.end.w, end.w); }
          }
        }
      }
    }
  }

  /** Every run, failed or not, and every task it spawned, is a run of the cache store. */
  lemma {:induction false} RunEvolves(env: Env, fuel: nat, p: Pipeline, input: Json, handled: Option<string>, w: World)
    ensures var r := RunPipeline(env, fuel, p, input, handled, w); !r.Stuck? ==> Evolves(env, w, r.w)
    decreases fuel, 2, 0
  {
    hide Loop, Evolves;
    LoopEvolves(env, fuel, p.steps, 0, Start(input, handled), w);
    var end := Loop(env, fuel, p.steps, 0, Start(input, handled), w);
    if end.LoopDone? {
      SettleEvolves(env, end.frame.saves, end.out, end.w);
      EvolvesTrans(env, w, end.w, Settle(env, end.frame.saves, end.out, end.w));
    }
  }

  // ----- nothing uncacheable is stored -----

  /** Uncacheable is what carries a typed error or a server error's status, and nothing else. */
  lemma UncacheableMeans(state: Json, status: Option<nat>)
    ensures Uncacheable(state, status) <==> (exists t :: Carries(state, t)) || (status.Some? && 500 <= status.value)
  {
    hide Carries, ErrorType;
    if ErrorType(state).Some? { ErrorTypeMeans(state, ErrorType(state).value); }
    forall t | Carries(state, t) ensures ErrorType(state).Some? { ErrorTypeMeans(state, t); }
  }

  ghost predicate CleanCache(c: Cache) {
    && Distinct(c.lru)
    && forall k :: Find(c.lru, k).Some? ==>
         !Uncacheable(Find(c.lru, k).value.response.body, Find(c.lru, k).value.response.status)
  }

  lemma StoreClean(c: Cache, k: string, e: Entry, size: nat)
    requires CleanCache(c) && !Uncacheable(e.response.body, e.response.status)
    ensures CleanCache(Cache(Lru.Store(c.lru, k, e), size))
  {
    StoreProps(c.lru, k, e);
    forall other ensures Find(Lru.Store(c.lru, k, e), other) == if other == k then Some(e) else Find(c.lru, other) {
      FindStore(c.lru, k, e, other);
    }
  }

  lemma PutClean(limits: Limits, c: Cache, k: string, r: Response, ttl: Option<nat>, now: nat)
    requires CleanCache(c) && !Uncacheable(r.body, r.status)
    ensures CleanCache(PutCache(limits, c, k, r, ttl, now))
  {
    if TriesPut(limits, r, ttl) {
      var need := limits.measure(r.body);
      var roomy := Evict(limits, Reclaim(c, k), need);
      EvictProps(limits, Reclaim(c, k), need);
      forall other ensures Find(roomy.lru, other).Some? ==> Find(roomy.lru, other) == Find(c.lru, other) {
        EvictFind(limits, Reclaim(c, k), need, other);
      }
      var e := NewEntry(limits, r, Ttl(limits, ttl), now);
      var fitted := MakeRoom(roomy.lru, limits.capacity, k);
      forall other ensures Find(fitted, other).Some? ==> Find(fitted, other) == Find(roomy.lru, other) {}
      StoreClean(Cache(fitted, 0), k, e, InsertEntry(limits, roomy, k, e).size);
    }
  }

  lemma ApplyClean(limits: Limits, c: Cache, op: Op)
    requires CleanCache(c)
    requires op.Put? ==> !Uncacheable(op.response.body, op.response.status)
    ensures CleanCache(Apply(limits, c, op))
  {
    match op
    case Put(k, r, ttl, now) => PutClean(limits, c, k, r, ttl, now);
    case Lookup(k, now) =>
      if Find(c.lru, k).Some? {
        var e := Find(c.lru, k).value;
        StoreClean(c, k, e, c.size);
        StoreClean(c, k, e.(refreshStarted := Some(now)), c.size);
        WithoutProps(c.lru, k);
        forall other ensures Find(Without(c.lru, k), other).Some? ==>
            Find(Without(c.lru, k), other) == Find(c.lru, other) {
          FindWithout(c.lru, k, other);
        }
      }
    case Clear(k, now) =>
      if Find(c.lru, k).Some? { StoreClean(c, k, Find(c.lru, k).value.(refreshStarted := None), c.size); }
  }

  lemma {:induction false} ReplayClean(limits: Limits, c: Cache, ops: seq<Op>)
    requires CleanCache(c)
    requires forall i :: 0 <= i < |ops| && ops[i].Put? ==> !Uncacheable(ops[i].response.body, ops[i].response.status)
    ensures CleanCache(Replay(limits, c, ops))
  {
    if ops != [] {
      ReplayClean(limits, c, ops[..|ops| - 1]);
      ApplyClean(limits, Replay(limits, c, ops[..|ops| - 1]), ops[|ops| - 1]);
    }
  }

  /** No run ever leaves a typed error or a server error in the cache. */
  lemma RunsStoreNoErrors(env: Env, fuel: nat, p: Pipeline, input: Json, handled: Option<string>, w: World)
    requires CleanCache(w.cache)
    ensures var r := RunPipeline(env, fuel, p, input, handled, w); !r.Stuck? ==> CleanCache(r.w.cache)
  {
    RunEvolves(env, fuel, p, input, handled, w);
    var r := RunPipeline(env, fuel, p, input, handled, w);
    if !r.Stuck? {
      var ops := r.w.history[|w.history|..];
      forall i | 0 <= i < |ops| && ops[i].Put? ensures !Uncacheable(ops[i].response.body, ops[i].response.status) {
        assert ops[i] == r.w.history[|w.history| + i];
      }
      ReplayClean(env.limits, w.cache, ops);
    }
  }

  // ----- settlement -----

  function Refreshing(saves: seq<PendingSave>): seq<PendingSave> {
    if saves == [] then [] else (if saves[0].refreshing then [saves[0]] else []) + Refreshing(saves[1..])
  }

  /** The operations that settle `saves` with output `r`, the first at position `n` of the history. */
  function SettlementOps(env: Env, saves: seq<PendingSave>, r: Response, n: nat): seq<Op> {
    if Uncacheable(r.body, r.status) then
      var held := Refreshing(saves);
      seq(|held|, i requires 0 <= i < |held| => Clear(held[i].key, env.clock(n + i)))
    else
      seq(|saves|, i requires 0 <= i < |saves| => Put(saves[i].key, r, Some(saves[i].ttl), env.clock(n + i)))
  }

  /** The first save is settled first. */
  lemma FirstSettled(env: Env, saves: seq<PendingSave>, r: Response, n: nat)
    requires saves != []
    ensures SettlementOps(env, saves, r, n) ==
              if !Uncacheable(r.body, r.status)
              then [Put(saves[0].key, r, Some(saves[0].ttl), env.clock(n))] + SettlementOps(env, saves[1..], r, n + 1)
              else if saves[0].refreshing
              then [Clear(saves[0].key, env.clock(n))] + SettlementOps(env, saves[1..], r, n + 1)
              else SettlementOps(env, saves[1..], r, n)
  {
    hide Uncacheable;
  }

  /** Settling appends exactly the settling operations. */
  lemma {:induction false} SettleOps(env: Env, saves: seq<PendingSave>, r: Response, w: World)
    ensures Settle(env, saves, r, w).history == w.history + SettlementOps(env, saves, r, |w.history|)
    decreases |saves|
  {
    if saves != [] {
      FirstSettled(env, saves, r, |w.history|);
      hide Apply, Uncacheable, SettlementOps;
      SettleOps(env, saves[1..], r, SettleOp(env, saves[0], r, w));
    }
  }

  lemma {:induction false} SettleFreesSlots(env: Env, saves: seq<PendingSave>, r: Response, w: World, k: string)
    requires Uncacheable(r.body, r.status)
    requires (exists i :: 0 <= i < |saves| && saves[i].refreshing && saves[i].key == k) || SlotFree(w.cache, k)
    ensures SlotFree(Settle(env, saves, r, w).cache, k)
    decreases |saves|
  {
    if saves != [] {
      var v := SettleOp(env, saves[0], r, w);
      if saves[0].refreshing && Find(w.cache.lru, saves[0].key).Some? {
        FindStore(w.cache.lru, saves[0].key, Find(w.cache.lru, saves[0].key).value.(refreshStarted := None), k);
      }
      if !SlotFree(v.cache, k) {
        var i :| 0 <= i < |saves| && saves[i].refreshing && saves[i].key == k;
        assert saves[1..][i - 1] == saves[i];
      }
      SettleFreesSlots(env, saves[1..], r, v, k);
    }
  }

  /** Nobody holds the refresh slot of `k`. */
  predicate SlotFree(c: Cache, k: string) {
    Find(c.lru, k).Some? ==> Find(c.lru, k).value.refreshStarted.None?
  }

  /** A run that ends with a value settles its own saves, once each and in order, as its last cache operations:
      the saves are exactly its own lookups that missed or won a refresh; a cacheable output is put under every
      one of them, an uncacheable one only frees the refresh slots they hold. */
  lemma SavesSettledOnce(env: Env, fuel: nat, p: Pipeline, input: Json, handled: Option<string>, w: World)
    requires RunPipeline(env, fuel, p, input, handled, w).Value?
    ensures var r := RunPipeline(env, fuel, p, input, handled, w);
            var end := Loop(env, fuel, p.steps, 0, Start(input, handled), w);
            && end.LoopDone? && end.out == r.out
            && end.frame.saves == SavesFor(end.frame.lookups)
            && r.w.history == end.w.history + SettlementOps(env, SavesFor(end.frame.lookups), r.out, |end.w.history|)
            && (Uncacheable(r.out.body, r.out.status) ==>
                  forall i :: 0 <= i < |end.frame.saves| && end.frame.saves[i].refreshing
                              ==> SlotFree(r.w.cache, end.frame.saves[i].key))
  {
    hide Loop;
    var f := Start(input, handled);
    LoopFollows(env, fuel, p.steps, 0, f, w);
    var end := Loop(env, fuel, p.steps, 0, f, w);
    SettleOps(env, end.frame.saves, end.out, end.w);
    hide SettlementOps;
    if Uncacheable(end.out.body, end.out.status) {
      forall i | 0 <= i < |end.frame.saves| && end.frame.saves[i].refreshing
        ensures SlotFree(Settle(env, end.frame.saves, end.out, end.w).cache, end.frame.saves[i].key)
      {
        SettleFreesSlots(env, end.frame.saves, end.out, end.w, end.frame.saves[i].key);
      }
    }
  }
}

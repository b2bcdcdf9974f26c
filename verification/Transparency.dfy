/** A pipeline that begins with a cache step: once a run has stored its output, later runs under the same key
    return exactly that output for as long as it is fresh. */
module Transparency {
  import opened Base
  import opened JsonValues
  import opened Ast
  import opened Lru
  import opened Responses
  import opened CacheTheorems
  import opened Runtime
  import opened Steps
  import opened Interpreter
  import opened Frames
  import opened Settlement

  /** A first step that always consults the cache. */
  predicate IsCacheStep(env: Env, c: Step) {
    && c.Regular? && c.name == "cache" && c.condition.None? && "cache" in env.behaviors
    && env.cacheSettings(CacheConfig(env, c)).enabled
  }

  /** The config of the step, after variable resolution; it does not depend on the input. */
  function CacheConfig(env: Env, c: Step): string
    requires c.Regular?
  {
    match ResolveVariable(env, c.loc, "cache", c.config)
    case None => c.config
    case Some(v) => v.value
  }

  function CacheTtl(env: Env, c: Step): nat
    requires c.Regular?
  {
    env.cacheSettings(CacheConfig(env, c)).ttl
  }

  /** The key the step looks up when it comes first. */
  function CacheKey(env: Env, c: Step, input: Json): string
    requires c.Regular?
  {
    env.cacheKey(Some(StepId(c, 0)), CacheConfig(env, c), env.cacheSettings(CacheConfig(env, c)).keyTemplate,
                 ResolveConfig(env, c.loc, "cache", c.config, input).input)
  }

  function FirstLookup(env: Env, c: Step, input: Json, w: World): Outcome
    requires c.Regular?
  {
    LookupOutcome(env.limits, w.cache, CacheKey(env, c, input), Now(env, w))
  }

  /** What the cache step does to its run. */
  lemma CacheStepEffect(env: Env, c: Step, rest: seq<Step>, f: Frame, w: World)
    requires IsCacheStep(env, c)
    ensures var plan := PlanStep(env, c, 0, rest, f, w);
            var out := FirstLookup(env, c, f.state, w);
            && plan.Done?
            && (out.Fresh? || out.Stale? ==>
                  && plan.end.Return? && plan.end.frame.saves == f.saves
                  && plan.end.out == Response(out.response.body, out.response.contentType,
                                              OrElse(out.response.status, f.status)))
            && (out.Miss? || out.Refresh? ==>
                  && plan.end.Continue?
                  && plan.end.frame.lookups
                      == f.lookups + [LookupEvent(CacheKey(env, c, f.state), CacheTtl(env, c), out)])
  {
  }

  /** A hit ends the run with the cached response, and settles nothing. */
  lemma HitReturnsResponse(env: Env, fuel: nat, c: Step, rest: seq<Step>, input: Json, handled: Option<string>,
                           w: World)
    requires IsCacheStep(env, c) && ErrorType(input).None?
    requires var out := FirstLookup(env, c, input, w); out.Fresh? || out.Stale?
    ensures var r := RunPipeline(env, fuel, Pipeline([c] + rest), input, handled, w);
            r.Value? && r.out == FirstLookup(env, c, input, w).response
  {
    hide PlanStep, FirstLookup;
    var f := Recheck(Start(input, handled));
    assert ([c] + rest)[1..] == rest;
    CacheStepEffect(env, c, rest, f, w);
    var plan := PlanStep(env, c, 0, rest, f, w);
    assert Loop(env, fuel, [c] + rest, 0, Start(input, handled), w)
        == LoopDone(plan.end.out, plan.end.frame, plan.end.w);
  }

  // ----- what a miss leaves behind -----

  lemma {:induction false} SavesForPrefix(a: seq<LookupEvent>, b: seq<LookupEvent>)
    requires a <= b
    ensures SavesFor(a) <= SavesFor(b)
    decreases |b|
  {
    if a != b {
      SavesForPrefix(a, b[..|b| - 1]);
    }
  }

  /** Peel the cache step off the loop. */
  lemma AfterCacheStep(env: Env, fuel: nat, c: Step, rest: seq<Step>, input: Json, handled: Option<string>, w: World)
    requires IsCacheStep(env, c) && ErrorType(input).None?
    requires var out := FirstLookup(env, c, input, w); out.Miss? || out.Refresh?
    ensures var plan := PlanStep(env, c, 0, rest, Recheck(Start(input, handled)), w);
            && plan.Done? && plan.end.Continue? && Registered(plan.end.frame)
            && plan.end.frame.lookups
                == [LookupEvent(CacheKey(env, c, input), CacheTtl(env, c), FirstLookup(env, c, input, w))]
            && Loop(env, fuel, [c] + rest, 0, Start(input, handled), w)
                == Loop(env, fuel, rest, 1, plan.end.frame, plan.end.w)
  {
    hide PlanStep, FirstLookup, CacheKey, CacheTtl;
    var f := Recheck(Start(input, handled));
    assert ([c] + rest)[1..] == rest;
    CacheStepEffect(env, c, rest, f, w);
    StepFollows(env, c, 0, rest, f, w);
  }

  /** The save registered by a missing first step comes first among the run's saves. */
  lemma MissRegistersFirst(env: Env, fuel: nat, c: Step, rest: seq<Step>, input: Json, handled: Option<string>,
                           w: World)
    requires IsCacheStep(env, c) && ErrorType(input).None?
    requires var out := FirstLookup(env, c, input, w); out.Miss? || out.Refresh?
    ensures var end := Loop(env, fuel, [c] + rest, 0, Start(input, handled), w);
            end.LoopDone? ==>
              && Registered(end.frame) && |end.frame.saves| > 0
              && end.frame.saves[0].key == CacheKey(env, c, input) && end.frame.saves[0].ttl == CacheTtl(env, c)
  {
    hide Loop, PlanStep, FirstLookup, CacheKey, CacheTtl;
    AfterCacheStep(env, fuel, c, rest, input, handled, w);
    var after := PlanStep(env, c, 0, rest, Recheck(Start(input, handled)), w).end;
    LoopFollows(env, fuel, rest, 1, after.frame, after.w);
    var end := Loop(env, fuel, rest, 1, after.frame, after.w);
    if end.LoopDone? {
      assert after.frame.lookups[..0] == [];
      SavesForPrefix(after.frame.lookups, end.frame.lookups);
    }
  }

  /** A response that fits is always accepted: eviction can empty the store if it must. */
  lemma FittingPutAccepted(limits: Limits, c: Cache, k: string, r: Response, ttl: Option<nat>)
    requires Accounted(limits, c)
    ensures Accepts(limits, c, k, r, ttl) <==> TriesPut(limits, r, ttl) && limits.measure(r.body) <= limits.maxTotal
  {
    EvictProps(limits, Reclaim(c, k), limits.measure(r.body));
  }

  lemma {:induction false} LedgerAfterPuts(limits: Limits, base: seq<Op>, puts: seq<Op>, r: Response)
    requires 0 < limits.capacity && puts != [] && limits.measure(r.body) <= limits.maxTotal
    requires forall i :: 0 <= i < |puts| ==> puts[i].Put? && puts[i].response == r
    requires TriesPut(limits, r, puts[0].ttl)
    ensures puts[0].key in Ledger(limits, base + puts) && Ledger(limits, base + puts)[puts[0].key].response == r
    decreases |puts|
  {
    hide Accepts;
    var front := puts[..|puts| - 1];
    var last := puts[|puts| - 1];
    assert (base + puts)[..|base + puts| - 1] == base + front;
    if front != [] {
      LedgerAfterPuts(limits, base, front, r);
    } else {
      CounterBounded(limits, base + front);
      FittingPutAccepted(limits, Replay(limits, EMPTY, base + front), last.key, r, last.ttl);
    }
  }

  /** The output can be stored: cacheable, a positive TTL, and small enough. */
  predicate Storable(env: Env, out: Response, ttl: nat) {
    && !Uncacheable(out.body, out.status) && TriesPut(env.limits, out, Some(ttl))
    && env.limits.measure(out.body) <= env.limits.maxTotal
  }

  /** The cache of `w` is what its recorded operations made of an empty one. */
  ghost predicate Faithful(env: Env, w: World) {
    0 < env.limits.capacity && w.cache == Replay(env.limits, EMPTY, w.history)
  }

  lemma FaithfulKept(env: Env, w: World, v: World)
    requires Faithful(env, w) && Evolves(env, w, v)
    ensures Faithful(env, v)
  {
    ReplayAppend(env.limits, EMPTY, w.history, v.history[|w.history|..]);
    assert v.history == w.history + v.history[|w.history|..];
  }

  /** A run that missed leaves its own output as the latest put under its key. */
  lemma MissStoresOutput(env: Env, fuel: nat, c: Step, rest: seq<Step>, input: Json, handled: Option<string>, w: World)
    requires Faithful(env, w) && IsCacheStep(env, c) && ErrorType(input).None?
    requires var out := FirstLookup(env, c, input, w); out.Miss? || out.Refresh?
    requires var r := RunPipeline(env, fuel, Pipeline([c] + rest), input, handled, w);
             r.Value? && Storable(env, r.out, CacheTtl(env, c))
    ensures var r := RunPipeline(env, fuel, Pipeline([c] + rest), input, handled, w);
            var ledger := Ledger(env.limits, r.w.history);
            && Faithful(env, r.w)
            && CacheKey(env, c, input) in ledger && ledger[CacheKey(env, c, input)].response == r.out
  {
    hide Loop, FirstLookup, CacheKey, CacheTtl, Uncacheable, TriesPut, Replay, Ledger;
    var p := Pipeline([c] + rest);
    var r := RunPipeline(env, fuel, p, input, handled, w);
    RunEvolves(env, fuel, p, input, handled, w);
    FaithfulKept(env, w, r.w);
    SavesSettledOnce(env, fuel, p, input, handled, w);
    MissRegistersFirst(env, fuel, c, rest, input, handled, w);
    var end := Loop(env, fuel, p.steps, 0, Start(input, handled), w);
    var puts := SettlementOps(env, end.frame.saves, r.out, |end.w.history|);
    LedgerAfterPuts(env.limits, end.w.history, puts, r.out);
  }

  /** Cache transparency. After a run that missed and stored its output, and any later operations on the cache
      that do not replace the entry, every run of the pipeline under the same key that still finds the entry before
      its deadline returns exactly the stored state, content type and status. */
  lemma CacheTransparency(env: Env, c: Step, rest: seq<Step>,
                          fuel1: nat, input1: Json, handled1: Option<string>, w1: World,
                          fuel2: nat, input2: Json, handled2: Option<string>, w2: World)
    requires Faithful(env, w1) && IsCacheStep(env, c)
    requires ErrorType(input1).None? && ErrorType(input2).None?
    requires var out := FirstLookup(env, c, input1, w1); out.Miss? || out.Refresh?
    requires var r1 := RunPipeline(env, fuel1, Pipeline([c] + rest), input1, handled1, w1);
             && r1.Value? && Storable(env, r1.out, CacheTtl(env, c))
             && Unreplaced(env.limits, r1.w.history, w2.history, CacheKey(env, c, input1))
    requires Faithful(env, w2) && CacheKey(env, c, input2) == CacheKey(env, c, input1)
    requires Find(w2.cache.lru, CacheKey(env, c, input1)).Some?
             && Now(env, w2) < Find(w2.cache.lru, CacheKey(env, c, input1)).value.freshUntil
    ensures var r1 := RunPipeline(env, fuel1, Pipeline([c] + rest), input1, handled1, w1);
            var r2 := RunPipeline(env, fuel2, Pipeline([c] + rest), input2, handled2, w2);
            r2.Value? && r2.out == r1.out
  {
    hide RunPipeline, CacheKey, CacheTtl, Storable, Replay, Ledger;
    var k := CacheKey(env, c, input1);
    var r1 := RunPipeline(env, fuel1, Pipeline([c] + rest), input1, handled1, w1);
    MissStoresOutput(env, fuel1, c, rest, input1, handled1, w1);
    LedgerKeeps(env.limits, r1.w.history, w2.history, k);
    LookupServesLatestPut(env.limits, w2.history, k, Now(env, w2));
    HitReturnsResponse(env, fuel2, c, rest, input2, handled2, w2);
  }
}

# WebPipe: a verified model of its executor, stores, loader and syntax

WebPipe is a small pipeline language with its own interpreter. This project models the parts of it whose behaviour is
easiest to get wrong and proves what they are meant to guarantee, over all inputs, all runs and all schedules.

- **Values and conditions** (`Base`, `Trimming`, `Texts`, `JsonValues`, `Tags`, `Conditions`, `Ast`). JSON is a
  datatype; a pipeline is a recursive list of regular, `result`, `if`, `dispatch` and `foreach` steps. `Conditions`
  says what tags mean over the switches themselves.
- **Executor** (`Runtime`, `Steps`, `Footprints`, `Interpreter`, `Contexts`, `Execution`). What a step does up to its
  next nested run is a *plan*, and what it does with that run's result is its *finish*; `Interpreter` drives plans
  into runs. `Execution` holds the step loop and the handlers in the source's own form, as methods that update request
  and pipeline contexts, each proved to end exactly as the interpreter says. What a step does, kind by kind and
  without plans, is said by `ControlFlow`, `RegularSteps` and `StateFolding`. The further theorems are about whole
  runs: the error state machine, dead code, save settlement (`RunTheorems`, `Failures`, `Frames`, `Settlement`),
  iteration (`ForeachRuns`), cache transparency (`Transparency`), feature flags (`FlagAnalysis`, `FlagTags`) and
  acyclic programs (`Termination`).
- **Tasks** (`Scheduling`, `Adequacy`, `Systems`, `TaskTrees`, `Isolation`, `Sharing`, `SharedStores`,
  `StoreHistories`). The same plans drive machines of small steps. In `Systems` the main run and all of its `@async`
  tasks, detached ones included, are numbered machines on one shared store, and a schedule is any sequence of their
  numbers.
- **Cache** (`Lru`, `Responses`, `CacheStores`, `CacheTheorems`, `Elections`). A class over a least-recently-used map
  given by contract, with a byte counter, expiry and the election of one refresher; its runs are compared with a plain
  ledger, and `Elections` says who refreshes, who is evicted and when.
- **Rate limiter** (`RateLimit`). A class over the same map, and what it admits over sliding intervals.
- **Modules** (`Programs`, `ImportGraphs`, `Loading`, `Loader`, `Stamping`, `Modules`). The depth-first loader with
  its cache and stack as a function and as a class, the second recursion that trusts the first for termination, the
  two numberings of files, the symbol tables, and scoped references.
- **Syntax** (`TagSyntax`, `ArgSyntax`). Printer and parser of tag expressions; the two scanners of inline arguments.
- **Debugger** (`JsonPointers`, `Debugger`, `Sessions`, `Stepping`, `DapServers`). The table of variable references
  against the paused state, with pointers as RFC 6901 sections 3 and 4 define them, and what a client may rely on over
  a session.

Middleware, jq, the clock, the file system and the enumeration order of object keys are parameters; what theorems ask
of them can be met (`SharedStores.SomeIsolated`, `Debugger.SomeOrder`). Runs carry a bound on nesting (`fuel`);
`RunTheorems.RunMoreFuel` shows that a run that ends is the same under every larger bound, so theorems about runs that
end do not depend on it.

Where code and prose in the repository differ, the model follows the code:

- Overwriting a live cache key subtracts its old size twice (src/runtime/context.rs:185-187 and 224-226), although the
  counter is described as the total held. `CacheTheorems.CounterExactIff` says exactly in which runs that shows, and
  `CacheTheorems.OverfullRun` is a four-put run that stores more than the limit.
- The rate-limit entry is described as a sliding window (src/runtime/context.rs:254); the code resets a fixed window
  at the first request after it, so sliding intervals admit up to twice the budget less one, and some run reaches
  that.
- A failed load leaves its files on the loading stack (src/loader.rs:56-86), and one loader goes on after failures
  (src/server.rs:255-270). That never makes a load fail that should succeed (`Loading.LoadsAfterAnyHistory`), but it
  makes the loader report cycles that are none (`Loading.BogusCycle`, `Loading.CycleRealIff`).
- A disconnect resumes every thread but keeps the cached references (src/debugger/dap_server.rs:915-929). The
  connection is the only one and ends there (src/debugger/dap_server.rs:193 and 250-253), so no client is left to see
  them.
- A second pause under one thread id restarts the counter over live references, and references past the stride belong
  to the next thread's range; `Sessions.DisorderHarms` shows the harm of either. Requests and tasks get ids of their
  own (src/server.rs:541 and 865, src/test_runner.rs:835-972, src/executor/step.rs:804), and only runs without one
  fall back to zero (src/executor/step.rs:581); no two of those were found that overlap, so the second pause is a
  property of the server and not of a known program.

## Model

| member | source | states |
|---|---|---|
| Execution.ExecutePipeline | src/executor/mod.rs:161-232 | The step loop with its mutable contexts ends with exactly the value, error, request context and cache of the interpreter's run, and leaves the store valid |
| Execution.ExecuteStep | src/executor/mod.rs:30-134 | Without a debugger attached, every kind of step leaves state, content type, status, pending saves and world as the interpreter's step does |
| Execution.ExecuteRegular | src/executor/step.rs:121-224 | A regular step, from its guard over name resolution and the choice of execution mode to error recovery, agrees with its plan |
| Execution.RunStandard | src/executor/step.rs:948-969 | A middleware call and the consultation of the cache agree with the interpreter and never leave a cache hit pending |
| Execution.RunNamed | src/executor/step.rs:867-911 | A named-pipeline call with its jq argument runs in the caller's request context and agrees with the interpreter |
| Execution.RunJoin | src/executor/step.rs:707-772 | A join takes each named handle at most once, skips unknown names, and agrees with the interpreter on tasks that end |
| Execution.CollectTasks | src/executor/step.rs:719-759 | The results are those of the named registered tasks that end, and exactly those handles are gone afterwards |
| Execution.SpawnTask | src/executor/step.rs:775-864 | A task gets a request context of its own and a snapshot; this is the schedule that runs it to its end at once, and `Sharing` relates it to every other |
| Execution.HandleIf | src/executor/step.rs:389-414 | The test runs on a copy of the state and only chooses a branch, exactly as the interpreter does; which one, and what becomes of its output, is said by `ControlFlow.IfTakes` |
| Execution.MatchCase | src/executor/step.rs:416-436 | The first case whose condition holds is taken, and the default if none does; when a condition holds is said by `Conditions.ConditionMeans` |
| Execution.HandleForeach | src/executor/step.rs:438-468 | The body runs once per item, in order, and the results replace the selected array |
| Execution.HandleResult | src/executor/step.rs:470-523 | The branch for the error type, else the default, produces the run's output with its status and cookies |
| Execution.IsEffectivelyLast | src/executor/step.rs:681-704 | The lookahead loop finds whether a later step of the list would still run on this state |
| Execution.RunPendingSaves | src/executor/mod.rs:239-271 | Writing the saves one by one to the store is the settlement the theorems speak about |
| Execution.ConsultCache | src/middleware/cache.rs:157-189 | A lookup either signals a hit with the response or registers one save holding key, TTL and whether a slot was won |
| Contexts.PipelineContext.Update | src/executor/step.rs:650-678 | Key by key: merging two objects lets the value's entries win and keeps the others, a transform that is not last keeps of the old entries exactly the runtime keys the value lacks, a last transform or a render leaves the value and read-only middleware the old state |
| Contexts.PipelineContext.RestoreSystemKeys | src/runtime/pipeline_context.rs:96-104 | Any saved keys come back only where the new state does not have them, the first of two for one key |
| Contexts.RequestContext.Take | src/executor/tasks.rs:27-29 | Taking a handle returns it and removes it |
| Conditions.TagMeans | src/executor/tags.rs:13-151 | `@when` and `@flag` hold if and only if every name listed is there with value true, under negation if none is; `@env` takes an unset environment for the one asked for and holds without exactly one argument; `@guard` holds if its filter answers yes, under negation no, and not on an error; every other tag holds |
| Conditions.ConditionMeans | src/executor/tags.rs:55-67 | A condition holds if and only if its tags do so, joined by its operators |
| Conditions.UnsetFailsClosed | src/executor/tags.rs:34-51 | A name nobody set fails `@when` and `@flag` whatever else they list, and satisfies their negations |
| Conditions.ConditionNames | src/executor/tags.rs:153-200 | The task, result and error names come from the leftmost tag of the kind that is not negated and has exactly one argument |
| Conditions.SkippedStep | src/executor/step.rs:121-125 | A regular step whose condition does not hold leaves frame and world as they are |
| Conditions.LookaheadMeans | src/executor/step.rs:681-704 | A step counts as last if and only if every step behind it is regular and its condition does not hold on the state |
| ControlFlow.IfTakes | src/executor/step.rs:389-414 | An `if` runs `then` on the unchanged state unless its test came out null or false, then `else`, or goes on as it was without one; it goes on with the branch's state, its status if it set one and its content type unless that is JSON; an error of test or branch is its own |
| ControlFlow.DispatchTakes | src/executor/step.rs:416-436 | A `dispatch` runs the first case whose condition holds, else the default, and goes on as an `if` does with its branch; with neither it changes nothing |
| ControlFlow.ResultTakes | src/executor/step.rs:470-523 | A `result` runs the first branch named like the state's error, or `ok` on a clean state, else the first default, handling that error, and ends the pipeline with the branch's status, its content type unless that is JSON, and inherited cookies it did not set |
| ControlFlow.ResultPassesThrough | src/executor/step.rs:518-523 | With no branch to take, it ends the pipeline with state, content type and status as they are |
| ControlFlow.StepRuns | src/executor/mod.rs:174-186 | A step runs, and the loop goes on with what it leaves, if the state carries no typed error, or carries exactly the one being handled, or the step is a `result`; handling ends with the error |
| ControlFlow.StepSkipped | src/executor/mod.rs:174-186 | On a typed error that is not being handled, any other step is passed over without an effect |
| RegularSteps.MiddlewareStep | src/executor/step.rs:121-224 | A middleware step that runs makes one call with its arguments, config and target on the prepared input, and stores the value: retyped by `@error`, under `data` for a fetching middleware with a target, else folded in key by key, without the automatic result name; a failure leaves an envelope of exactly the stated fields, any other error is raised, located once |
| RegularSteps.PipelineStep | src/executor/step.rs:867-911 | A pipeline call is noted, runs the pipeline found under its config on the input overlaid with its evaluated argument in the caller's context, and stores its outcome, content type and status in the same way |
| RegularSteps.JoinStep | src/executor/step.rs:707-772 | A join stores under `async` exactly the results of the named registered tasks, errors as objects that say so, and leaves exactly the other tasks registered |
| RegularSteps.CacheStep | src/middleware/cache.rs:157-189 | A cache step makes one lookup under the key of its own identity: a servable response ends the pipeline with its body, content type and status, or the run's status where it has none; a miss or an election notes one save and goes on with the input |
| RegularSteps.PipelineTask | src/executor/step.rs:775-864 | A pipeline run as a task sees nothing of the request but what lies outside of it; its state or the text of its located error is registered under its name, and nothing else of the run changes |
| RegularSteps.MiddlewareTask | src/executor/step.rs:775-864 | A middleware call made as a task is made once, without a target, on a request that holds nothing but what lies outside of it, and its value or error text is registered in the same way |
| RegularSteps.CacheTask | src/executor/step.rs:775-864 | A cache step run as a task looks up without a step identity, hands its input back and notes no save |
| StateFolding.UpdateFolds | src/executor/step.rs:650-678 | The state after a value is folded in, by the behaviour of the middleware and key by key |
| StateFolding.DataWraps | src/executor/step.rs:322-341 | A fetched value stands under `data` and its target; all other entries of the state and of its `data` object stay |
| Texts.PathReads | src/runtime/json_path.rs:9-16 | A selector of keys and indices joined by dots is read back, with a leading dot or an empty part anywhere as well |
| Texts.PathLeads | src/runtime/json_path.rs:22-40 | A path leads through the entry of its key in an object and through the element of its index in an array, and nowhere else |
| Texts.IndexReads | src/runtime/json_path.rs:31-33 | An index is decimal digits, with a plus sign or without, and nothing else |
| Texts.JoinNamesRead | src/executor/tasks.rs:32-61 | A list of task names is read back in order; a list parsed ahead is taken as it is |
| Texts.NoNamesRefused | src/executor/tasks.rs:47-58 | A blank list of task names is an error |
| Texts.LocalNames | src/executor/step.rs:913-945 | A name without a scope is the one of the step's own module, else the one of no module, for pipelines and for variables |
| Texts.ScopedNames | src/executor/step.rs:913-945 | A scoped name is the one of the module imported under its alias and of no other, for pipelines and for variables |
| Texts.UnknownAlias | src/executor/step.rs:921-944 | An alias the step's module does not declare leads to no variable, and to a pipeline only if one of no module has the name |
| Texts.OtherTextStands | src/executor/resolver.rs:6-32 | A scope mark counts only between two identifiers; any other text with one stands as it is |
| Texts.StepIdsApart | src/executor/step.rs:268-276 | Two steps share an identity only if file, line, column and position agree |
| RunTheorems.RunMoreFuel | src/executor/mod.rs:161-232 | A run that ends gives the same outcome and the same effects under every larger nesting bound |
| RunTheorems.DeadCodeAfterResult | src/executor/mod.rs:209-220 | Steps after a `result` step change neither the outcome nor any effect of a run, whatever precedes it |
| RunTheorems.LookaheadStopsAtResult | src/executor/step.rs:681-704 | What a step does cannot depend on steps behind a later `result`, its last-step decision included |
| RunTheorems.UnhandledErrorSkips | src/executor/mod.rs:174-186 | A run from an unhandled typed error is its first `result` step alone, or returns the input untouched |
| RunTheorems.ErrorsRunOnlyWhileHandled | src/executor/mod.rs:174-186 | A step other than `result` runs on a typed error only if every state visited so far carried exactly the type the branch entered with |
| Failures.FailureGoesToResult | src/executor/mod.rs:174-186 | Outside a handler for its own type, a failing step hands its typed error to the next `result` step and to no step before it, where the branch of that type or else the default takes it; with neither the envelope is the outcome |
| Failures.RecoverTypes | src/executor/resolver.rs:133-172 | Exactly middleware failures turn into a typed error, of the type the `@error` tag or the step's name gives; other errors go on, located once |
| ForeachRuns.ForeachMaps | src/executor/step.rs:438-468 | A `foreach` that goes through ran its body once on every item in order, put as many results in the items' place, and left everything on other paths alone |
| ForeachRuns.ForeachCompletes | src/executor/step.rs:438-468 | It goes through whenever the selector leads to an array and every body run ends with a value |
| ForeachRuns.ForeachFails | src/executor/step.rs:438-468 | A `foreach` fails with the error of the first body run that fails, in the world that run left, and at once if the selector leads to no array |
| ForeachRuns.ForeachIdentity | src/executor/step.rs:438-468 | A body that gives every item back leaves the whole state as it was, although the array is taken out meanwhile |
| ForeachRuns.SetElsewhere | src/runtime/json_path.rs:22-38 | Writing through one path leaves what lies on a path that parts from it |
| Frames.LoopFollows | src/executor/step.rs:371-381 | Pending saves are, in order, exactly the lookups of this run that gave no response, over the whole step loop |
| Settlement.RunEvolves | src/executor/mod.rs:161-232 | Whatever a run does, in failures and in tasks run at their spawn, its effect on the cache is a replay of recorded operations at the clock's instants, and every put is cacheable |
| StoreHistories.ScheduleEvolves | src/executor/mod.rs:161-271 | So is the effect of any interleaving of a run and its tasks on the store they share |
| Settlement.RunsStoreNoErrors | src/executor/mod.rs:239-271 | No run whose tasks run at their spawn leaves a typed error or a 5xx response in the cache |
| Settlement.UncacheableMeans | src/executor/mod.rs:249-250 | Uncacheable is exactly a state that carries a typed error or a status of 500 and above |
| StoreHistories.SchedulesStoreNoErrors | src/executor/mod.rs:239-271 | Nor does any interleaving of a run and its tasks |
| Settlement.SavesSettledOnce | src/executor/mod.rs:209-228 | A run that ends with a value settles each of its saves once, last and in order, with its own output; an uncacheable output frees the refresh slots instead |
| Transparency.HitReturnsResponse | src/executor/step.rs:371-381 | A fresh or stale hit in a first cache step ends the run with exactly the cached state, content type and status |
| Transparency.MissStoresOutput | src/executor/mod.rs:239-271 | A run that missed leaves its own output as the latest accepted put under its key |
| Transparency.FittingPutAccepted | src/runtime/context.rs:163-229 | A put is accepted if and only if its TTL is positive and it fits both limits: eviction always makes room |
| Transparency.CacheTransparency | src/executor/mod.rs:174-271 | Every later run under the same key, before the deadline and without an intervening put or eviction, returns exactly what the missing run returned |
| FlagAnalysis.FlagNonInterference | src/server.rs:52-154 | If the analysis says no flags are needed, and the steps it visits outside of tasks refer plainly and make calls that ignore the flags, any two sets of flags give the same state, content type, status, error and effects; the rest of the registry and of the program may use flags freely |
| FlagAnalysis.ScopedReferenceEscapes | src/server.rs:52-154 | A reference through an alias escapes the analysis: it answers no and no call reads a flag, yet the flag decides the outcome |
| FlagAnalysis.UndeclaredReadEscapes | src/server.rs:40-50 | So does a call that reads a flag in a step that does not declare so |
| FlagAnalysis.PlainResolution | src/executor/step.rs:913-945 | A plain reference resolves at run time to the pipeline the analysis looked at |
| Footprints.StepStems | src/executor/step.rs:121-224 | Whatever the state, a step only ever runs its own parts and one named pipeline fixed by its config, and only a task step spawns |
| Termination.AcyclicRunsEnd | src/executor/step.rs:867-911 | If a rank falls along the references a pipeline can come to, it has a bound within which every run ends, from any input in any world |
| Termination.AnalysisBound | src/server.rs:52-154 | If a rank falls along the references the analysis follows, the analysis, which keeps no visited set, answers within a bound; that the answer is right is `FlagTags.AcyclicFlagsExact` |
| FlagTags.FlagsNeededIff | src/server.rs:30-154 | Where the analysis answers, it says yes if and only if some step it visits, inside of steps and through names, tasks included, carries `@flag` or `@needs(flags)` in its condition or has a case with `@flag` |
| FlagTags.AcyclicFlagsExact | src/server.rs:52-154 | If a rank falls along the references it follows, the analysis gives that answer under every bound from some one on |
| Termination.AcyclicFlagsDecided | src/server.rs:52-154 | Then it answers, and where it says no of an innocent pipeline, runs under any two sets of flags agree |
| Tags.FlagFreeCondition | src/executor/tags.rs:55-93 | A condition without `@flag` evaluates the same under any flags; what it evaluates to is `Conditions.ConditionMeans` |
| Sharing.StoreUntouched | src/executor/step.rs:775-864 | On one store shared by the main run and all tasks: if no step the run can come to consults the cache or calls a middleware in a way that writes outside, no schedule ever changes the store |
| Sharing.SchedulesAgree | src/executor/step.rs:775-864 | Under the same condition on the program, whatever is registered beside, any two interleavings of main and task steps, detached tasks included, that end the main run end it in the same result |
| SharedStores.ScheduleDecides | src/executor/step.rs:775-864 | Without it the schedule can decide: a middleware that leaves a mark outside gives two ends of one run with different outputs |
| SharedStores.SomeIsolated | src/middleware/mod.rs:113-134 | The condition holds of programs in a registry that has the cache and a middleware that writes outside |
| Sharing.EveryScheduleAgrees | src/executor/step.rs:775-864 | Under that condition every interleaving that ends gives the interpreter's output or error |
| Sharing.SomeScheduleEnds | src/executor/step.rs:775-864 | And some interleaving always ends there, so the statement about all of them is not empty |
| Systems.AwaitedOnce | src/executor/tasks.rs:23-29 | Along every schedule, with shared stores or not, each spawned task is awaited at most once, and nothing else is |
| CacheStores.CacheStore.LookupEntry | src/runtime/context.rs:122-150 | The lookup in place gives the outcome and the contents of the specification and extends the recorded history; whom it elects and what it moves is said by `Elections.LookupDecides` |
| CacheStores.CacheStore.ClearRefresh | src/runtime/context.rs:154-159 | Clearing frees the slot of that key and nothing else |
| CacheStores.CacheStore.EvictFor | src/runtime/context.rs:189-211 | The eviction loop ends and drops least recent entries until there is room or nothing is left |
| CacheStores.CacheStore.PutResponse | src/runtime/context.rs:163-229 | A put refuses, evicts, replaces and counts as specified, and keeps the store a replay of its history |
| CacheTheorems.CounterBounded | src/runtime/context.rs:163-229 | In every run the byte counter stays within the limit and never exceeds the bytes held; keys stay distinct and within capacity |
| CacheTheorems.CounterExact | src/runtime/context.rs:163-229 | Without puts to live keys the counter is exactly the bytes held |
| CacheTheorems.OverwriteDrift | src/runtime/context.rs:185-226 | From an exact counter an accepted overwrite falls short by the lesser of the old size and the bytes of other keys that survive making room |
| CacheTheorems.CounterExactIff | src/runtime/context.rs:163-229 | Over whole runs the counter is exact throughout if and only if no operation is an accepted put to a live, non-empty entry that leaves other bytes behind, which is decided before the operation |
| CacheTheorems.OverfullRun | src/runtime/context.rs:185-226 | Four puts leave fifteen bytes under a limit of ten |
| CacheTheorems.ReplayRefines | src/runtime/context.rs:122-229 | After any run every entry carries the response and the deadlines of the latest accepted put of its key |
| CacheTheorems.LookupServesLatestPut | src/runtime/context.rs:122-150 | A lookup is a miss or serves the latest accepted put: fresh only before the TTL ends, stale only within the grace window, nothing later |
| CacheTheorems.RefreshersApart | src/runtime/context.rs:133-142 | Two elections for one undisturbed entry are at least the takeover time apart, and need a takeover shorter than the grace window |
| CacheTheorems.OneRefresherPerEntry | src/runtime/context.rs:66-71 | With a takeover no shorter than the grace window an entry elects one refresher in its life |
| Elections.LookupDecides | src/runtime/context.rs:122-150 | Within the grace window a lookup is told to refresh if and only if nobody holds the slot or the holder started at least the takeover time ago, and then holds it from that moment; a hit makes the entry the most recent, an expired one is dropped and its size given back |
| Elections.ElectionDecided | src/runtime/context.rs:133-142 | Over runs: a lookup that finds the latest put within its grace window is elected if and only if nobody was since that put and the last clear, or the last one who was is at least the takeover time ago |
| Elections.NextElected | src/runtime/context.rs:133-159 | After an accepted put, after a clear, and once the takeover time of the last elected is over, the first lookup in the grace window is elected |
| Elections.PutLeaves | src/runtime/context.rs:163-229 | A put without a lifetime or above the entry limit changes nothing, one above the total limit empties the store; any other drops the least recent entries and no more of them than needed, and comes last with deadlines counted from now, a free slot and the measured size |
| Elections.RecencyOrder | src/runtime/context.rs:122-229 | After any run the entries stand in the order of their last lookup, clear or accepted put |
| Elections.LeastRecentGoes | src/runtime/context.rs:189-226 | Whatever a put evicts was used less recently than anything it leaves |
| CacheStores.CacheStore.WithDefaults | src/runtime/context.rs:66-80 | The default settings satisfy that condition |
| RateLimit.RateLimitStore.CheckAndIncrement | src/runtime/context.rs:289-331 | The counter updated in place answers as specified: admission, count, limit and seconds left |
| RateLimit.RateLimitStore.GetCount | src/runtime/context.rs:334-345 | The count of the running window, zero after it, nothing for an unknown key |
| RateLimit.CountersTally | src/runtime/context.rs:289-331 | A counter is exactly what its window has admitted, the first admission being at its start, and nothing was admitted later than the window |
| RateLimit.WindowBound | src/runtime/context.rs:289-331 | However long the run goes on, every window ever counted admitted at most max(1, limit + burst) requests |
| RateLimit.SlidingBound | src/runtime/context.rs:289-331 | Any half-open interval one window long admits fewer than twice that budget |
| RateLimit.BoundReached | src/runtime/context.rs:289-331 | Under every policy with a window some run admits twice the budget less one in such an interval, so the bound is exact |
| RateLimit.AnswersTold | src/runtime/context.rs:289-331 | After any run a request is admitted if and only if its window has admitted fewer than limit and burst together, or is over; the count, limit and seconds told are exact, so that a refused client is admitted one second after the time it was told and not before that time |
| RateLimit.ServedLast | src/runtime/context.rs:289-345 | Being asked about makes a key the most recent; a new one pushes out the least recent of a full store |
| RateLimit.FewKeysKept | src/runtime/context.rs:275-283 | A store with room for all keys in use never evicts one of them |
| Loader.ModuleLoader.LoadModule | src/loader.rs:40-95 | In any state the method leaves exactly the result, cache and stack of the specification, and a loader that has only ever loaded stays ready |
| Loading.LoadCorrect | src/loader.rs:40-95 | A load succeeds if and only if everything reachable resolves, parses and is free of cycles and nothing reachable is on the stack; success restores the stack and keeps the cache closed under imports, failure leaves an import path of files that cannot be loaded |
| Loading.LoadsAfterAnyHistory | src/loader.rs:40-95 | After any sequence of loads, failed ones included, a load succeeds if and only if everything reachable from the file resolves, parses and is free of cycles |
| Loading.CycleRealIff | src/loader.rs:52-58 | A reported cycle is one of the import graph if and only if it is closed by a file that this load pushed, or the older part of the stack leads on to the loaded file along imports |
| Loading.ClearCycleReal | src/loader.rs:52-58 | If the file reaches nothing left over on the stack, which can be told before the load, a cycle reported by its load is real |
| Loading.FirstCycleReal | src/loader.rs:52-58 | With nothing left over on the stack every reported cycle is real |
| Loading.BogusCycle | src/loader.rs:52-58 | After a file that does not parse, loading its importer reports a cycle through it although it imports nothing |
| Loading.ErrorTells | src/loader.rs:40-95 | An error other than a cycle names something reachable that is wrong as it says: a file that does not parse or cannot be read, or an import that leads nowhere |
| Loader.ModuleLoader.FormatImportCycle | src/loader.rs:184-203 | The reported files are the stack from the first occurrence of the target on, closed by the target |
| Loader.ModuleLoader.LoadRecursive | src/loader.rs:104-146 | The recursion without a cycle check ends and succeeds if and only if the file is loadable, whatever earlier loads left behind |
| Loader.ModuleLoader.LoadModuleTree | src/loader.rs:100-150 | After any history of loads the registry holds exactly the files reachable from the root, and exactly the declared aliases lead to their files, which are registered too |
| Modules.ModuleRegistry.Register | src/executor/modules.rs:48-62 | The next identity is the number of modules so far |
| Modules.RegisterModules | src/server.rs:717-741 | Registering in sorted order hands every file the number it was given beforehand |
| Modules.RegisterSymbols | src/server.rs:744-788 | Each module's last pipeline and variable of a name is found under its number, stamped with its file, and nothing else is; query and mutation resolvers share one table in which the last file wins over earlier ones and the main file |
| Modules.RegisterLocal | src/server.rs:691-714 | The main file's pipelines, variables and prefixed resolvers are found without a number, resolvers over pipelines of the same key |
| Modules.LastNamedMeans | src/server.rs:691-714 | Of several pipelines of one name the last counts |
| Modules.LastVariableMeans | src/server.rs:691-714 | Of several variables of one kind and name the last counts |
| Modules.ResolversApart | src/server.rs:770-788 | Query and mutation resolvers are found under prefixes of their own and do not hide one another |
| Modules.LocalApart | src/server.rs:691-714 | The main file's resolvers are found in the same way, beside its pipelines under their plain names |
| Modules.ResolverOfLast | src/server.rs:770-788 | Of the resolvers of one key in several files the last file's counts, stamped with it |
| Modules.BuildRuntime | src/server.rs:691-788 | Whatever order the files were enumerated in, registry, pipelines, resolvers and variables agree with the sorted numbering |
| Modules.MergePrograms | src/server.rs:306-368 | The merge holds every module's variables, pipelines, routes, queries, mutations, resolvers and schemas in sorted order, everything that runs stamped with the number of its file |
| Modules.MergedLists | src/server.rs:306-368 | The merge lists pipelines, queries, mutations and resolvers file by file, each file's in its order and stamped, and nothing else |
| Modules.MergedRest | src/server.rs:306-368 | The merge appends every file's variables, its schema if it has one, and its routes, whose own pipelines are stamped while their references stay |
| Modules.MergedBelong | src/server.rs:306-368 | Whatever the merge gathers that can run belongs, at every depth, to the file it came from |
| Stamping.StampBelongs | src/server.rs:192-232 | Stamping reaches every step at every depth, with the file and with the module number |
| Stamping.StampTwins | src/server.rs:192-232 | Stamping changes nothing but the files and modules of steps, at any depth |
| Modules.NumberingsAgree | src/server.rs:307-320 | The two numberings of the same files are equal |
| Modules.ScopedResolution | src/executor/step.rs:913-945 | In a module that declares the alias, `alias::name` finds exactly the imported file's pipeline of that name, stamped with that file, or nothing |
| Modules.MergedStepsResolve | src/server.rs:284-368 | Steps of merged pipelines resolve scoped references in the runtime's tables as steps of the file they came from |
| Modules.ScopedRefReads | src/executor/resolver.rs:19-32 | Two identifiers joined by `::` are read back as alias and name |
| TagSyntax.TagExpressionRoundTrip | src/ast/parser.rs:225-273 | Parsing a printed expression consumes exactly it; the result evaluates the same in every context, names the same task, result and error, prints the same, and is the original if and only if that leans left |
| TagSyntax.WholeTextRoundTrip | src/ast/fmt.rs:135-151 | With nothing behind it the whole text is consumed and gives the left-nested form |
| TagSyntax.TagsLook | src/ast/fmt.rs:109-133 | A printed tag shows sign, name and arguments, with backticks where an argument needs them |
| TagSyntax.ExpressionsLook | src/ast/fmt.rs:135-151 | A printed expression shows its operators, and parentheses around a disjunction inside a conjunction |
| TagSyntax.Precedence | src/ast/parser.rs:225-273 | `and` binds closer than `or`, and parentheses closer than both |
| TagSyntax.PrintableExactly | src/ast/fmt.rs:109-133 | A tag comes back from its printed form if and only if its name is an identifier and each argument is an identifier or quoted without the quote character |
| TagSyntax.TagReads | src/ast/parser.rs:367-403 | A printed tag is read back in front of any text that cannot continue it |
| TagSyntax.LeftNestEvaluates | src/executor/tags.rs:55-67 | Leaning an expression left keeps its meaning under every context |
| TagSyntax.LeftNestArgument | src/executor/tags.rs:153-200 | Leaning an expression left keeps the leftmost argument of every tag name |
| ArgSyntax.FindClosing | src/ast/parser.rs:495-521 | The scanning loop finds the first closing bracket outside strings and nested brackets |
| ArgSyntax.SplitBalancedArgs | src/ast/parser.rs:535-585 | The splitting loop yields the arguments of the specification, for any content |
| ArgSyntax.ParseInlineArgs | src/ast/parser.rs:479-532 | No bracket gives no arguments; a bracket behind spaces or one that never closes is an error; otherwise the arguments and the text behind |
| ArgSyntax.FinderPasses | src/ast/parser.rs:500-521 | The finder, which counts one kind of bracket, passes over any text balanced in all kinds |
| ArgSyntax.SplitterGathers | src/ast/parser.rs:535-585 | The splitter, which counts all kinds together, gathers such a text whole |
| ArgSyntax.InlineArgsRoundTrip | src/ast/fmt.rs:156-164 | Parsing a printed list of well-formed arguments and gaps, in either bracket and before any text, returns the list, less a gap at its end, and exactly that text |
| ArgSyntax.NoBracketNoArgs | src/ast/parser.rs:479-485 | Text without a bracket behind its leading blanks has no arguments and is left as it is |
| ArgSyntax.BracketBehindBlanks | src/ast/parser.rs:480-491 | A bracket behind blanks is an error |
| ArgSyntax.EmptyList | src/ast/parser.rs:535-538 | Nothing but blanks between brackets is an empty list |
| ArgSyntax.NeverClosed | src/ast/parser.rs:493-523 | A bracket that nothing closes is an error |
| JsonPointers.TokenRoundTrip | src/debugger/dap_server.rs:167-171 | Every key comes back from its escaped token, which holds no slash |
| JsonPointers.IndexToken | src/debugger/dap_server.rs:986-990 | An index in decimal is a valid array index token for that element |
| JsonPointers.ResolveExtended | src/debugger/dap_server.rs:947-950 | One more token leads one step further from where a pointer led |
| Debugger.VariablesShow | src/debugger/dap_server.rs:628-671 | Expanding a reference shows the children of the very value its pointer leads to, each complex one behind a reference nobody else has, and leaves earlier references alone |
| Debugger.ResumeIsolates | src/debugger/dap_server.rs:174-184 | Resuming a thread forgets its references and leaves every other thread's references leading where they led |
| Sessions.OrderlyServed | src/debugger/dap_server.rs:596-671 | In a session without a second pause over live references and without an expansion past the stride, however it ends, every reference the client holds stands for its value in the paused state, every answer speaks of that state, and no live reference is handed out twice |
| Sessions.DisorderHarms | src/debugger/dap_server.rs:596-671 | Either of the two after an orderly session can be followed by one request after which the client has lost a live reference or been handed one twice |
| Sessions.SharedThreadZero | src/debugger/dap_server.rs:1145-1192 | What a second pause would do: the client expands a reference it holds and is shown a value that is not in the paused state |
| Debugger.RequestSound | src/debugger/dap_server.rs:596-671 | A request keeps the server's bookkeeping - references within the counter, pointers leading to the cached values, counters below the stride - if and only if it is orderly |
| Debugger.SessionSound | src/debugger/dap_server.rs:937-1016 | Over a whole session that bookkeeping holds throughout if and only if every request was orderly |
| DapServers.DapServer.BeforeStep | src/debugger/dap_server.rs:1145-1192 | A step pauses at a breakpoint or as the stepping mode says, with its counter at one, and the thread is announced |
| Stepping.StopsFirstThere | src/debugger/dap_server.rs:1145-1192 | In any session and whatever other threads do, a resumed thread runs until its first step at a breakpoint or where the resume stops: stepping over no deeper than it was paused, stepping out less deep, stepping in at once, going on nowhere |
| Stepping.KidsComplete | src/debugger/dap_server.rs:937-1016 | Expanding an object shows each of its entries once, expanding an array each of its elements in order |
| Stepping.LinesShow | src/debugger/dap_server.rs:937-1016 | A value without children is one line with its text; in a list a container shows its kind, an array its length |
| Stepping.FrameShowsState | src/debugger/dap_server.rs:596-626 | The scope of every frame of a paused thread leads to the thread's whole state |
| DapServers.DapServer.HandleScopes | src/debugger/dap_server.rs:596-626 | The root reference of the frame's thread points at the whole state |
| DapServers.DapServer.HandleVariables | src/debugger/dap_server.rs:628-671 | The answer and the new tables are those of the specification, unknown references and running threads included |
| DapServers.DapServer.JsonToVariables | src/debugger/dap_server.rs:937-1016 | The loop over children yields one line each and registers the complex ones |
| DapServers.DapServer.ClearThreadVariables | src/debugger/dap_server.rs:174-184 | Exactly the references in the thread's range are forgotten |
| DapServers.DapServer.HandleContinue | src/debugger/dap_server.rs:811-829 | The thread resumes with its state and without stepping, its references forgotten |
| DapServers.DapServer.HandleNext | src/debugger/dap_server.rs:831-852 | As above, stepping over at the depth of its stack |
| DapServers.DapServer.HandleStepIn | src/debugger/dap_server.rs:854-868 | As above, pausing at the very next step |
| DapServers.DapServer.HandleStepOut | src/debugger/dap_server.rs:870-890 | As above, stepping out |
| DapServers.DapServer.HandleDisconnect | src/debugger/dap_server.rs:915-929 | Every paused thread is handed its state back once, announcements are cleared and shutdown is notified; references stay behind |

## Left out

- LoadModule: the file system does not change during a load, and two paths that name one file canonicalize alike.
- FlagNonInterference: outside of tasks, scoped references and variables that stand for pipeline names are excluded where the analysis looks, because it looks names up literally, and so are calls that read flags; `ScopedReferenceEscapes` and `UndeclaredReadEscapes` show why.
- CacheTransparency: the default key and the parsing of the cache block's settings are abstract functions, and the cache is written by no middleware but the cache.
- SchedulesAgree: one small step of a machine may make one middleware call, one cache lookup or one settlement of all saves of a run; a task that panics is not modelled.
- EveryScheduleAgrees: for runs whose interpretation ends; the condition on the program is the one of `Sharing.StoreUntouched`.
- RunEvolves: of the schedules of tasks only the interpreter's; `StoreHistories.ScheduleEvolves` covers all.
- RunsStoreNoErrors: of the schedules of tasks only the interpreter's; `StoreHistories.SchedulesStoreNoErrors` covers all.
- MergePrograms: configuration, test descriptions and feature-flag blocks are not merged, and schema texts are gathered but not joined.
- ExecutePipeline: a run that exceeds the nesting bound is reported as unfinished and nothing more is said about it; acyclic programs have a bound that suffices.
- IfTakes: like every statement about a step's nested run, under a nesting bound that allows for one.
- ExecuteStep: the debugger hook, which may change the state before a step, and profiler samples are not modelled.
- RunJoin: the error value for a task that panicked is not modelled.
- CollectTasks: neither the error value for a task that panicked nor the merging of profiler samples is modelled.
- SpawnTask: in this method a task runs to its end when it is spawned; `Sharing` shows that every other interleaving agrees when stores are not shared.
- `@guard`, jq, JSON decoding of join targets, and every middleware besides the cache are uninterpreted functions.
- The serialized size of a response body is an abstract measure, and the map behind both stores is given by contract.
- 64-bit overflow of sizes, instants, counters and references; instants are whole nanoseconds under a clock that never runs backwards.
- Locks: each store operation and each debugger request is one atomic step.
- Text is ASCII in both parsers: the source mixes byte offsets with character counts, and its printer asks for Unicode letters.
- Tag parsing at the level of a whole step, which collects several conditions, and printing and parsing of whole programs.
- Printed argument lists that are empty: they print as nothing.
- Breakpoint tables, frames of the stack trace, `setVariable` and `evaluate`: values they hand out have no pointer or leave cached ones stale.
- HTTP, static files, the test language, the command line and all other middleware.

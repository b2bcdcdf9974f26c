/** The main run and all its tasks as one system: machines numbered in the order they were spawned, one shared
    store, and a schedule that picks who takes the next small step. A task whose handle is dropped goes on
    running. */
module Systems {
  import opened Base
  import opened JsonValues
  import opened Ast
  import opened Responses
  import opened Runtime
  import opened Steps
  import opened Interpreter
  import opened Scheduling

  /** What every machine shares: the cache, its operations so far, and everything outside the process. */
  datatype Store = Store(cache: Cache, history: seq<Op>, outside: Json)

  datatype Handle = Handle(id: nat, loc: Location)

  /** A machine and the handles of its tasks by name. */
  datatype Proc = Proc(c: Machine, handles: map<string, Handle>)

  /** `awaited` lists the machines whose results have been taken, in order. */
  datatype System = System(procs: seq<Proc>, store: Store, awaited: seq<nat>)

  function StoreIn(w: World): Store { Store(w.cache, w.history, w.shared.outside) }

  function WithStore(w: World, s: Store): World {
    w.(cache := s.cache, history := s.history, shared := w.shared.(outside := s.outside))
  }

  function EndWith(end: StepEnd, s: Store): StepEnd {
    match end
    case Continue(f, w) => Continue(f, WithStore(w, s))
    case Return(out, f, w) => Return(out, f, WithStore(w, s))
    case Raised(e, w) => Raised(e, WithStore(w, s))
  }

  function PlanWith(p: Plan, s: Store): (q: Plan)
    ensures Steps.Sound(p) ==> Steps.Sound(q)
  {
    match p
    case Done(end) => Done(EndWith(end, s))
    case Call(pipeline, input, h, k, w) => Call(pipeline, input, h, k, WithStore(w, s))
    case Fork(name, job, f, w) => Fork(name, job, f, WithStore(w, s))
    case Gather(names, input, pending, w) => Gather(names, input, pending, WithStore(w, s))
  }

  function RunWith(r: Run, s: Store): Run {
    match r
    case Stuck => Stuck
    case Failed(e, w) => Failed(e, WithStore(w, s))
    case Value(out, w) => Value(out, WithStore(w, s))
  }

  /** The machine, about to step on the store as it is now. */
  function Load(c: Machine, s: Store): Machine {
    var control := match c.control
      case Enter(p, input, h, w) => Enter(p, input, h, WithStore(w, s))
      case At(steps, idx, f, w) => At(steps, idx, f, WithStore(w, s))
      case Doing(plan, steps, idx) => Doing(PlanWith(plan, s), steps, idx)
      case Joining(names, results, input, pending, w, steps, idx) =>
        Joining(names, results, input, pending, WithStore(w, s), steps, idx)
      case Calling(call, input, w) => Calling(call, input, WithStore(w, s))
      case Back(r) => Back(RunWith(r, s));
    Config(control, c.stack)
  }

  function EndStore(end: StepEnd): Store { StoreIn(end.w) }

  function PlanStore(p: Plan): Store { if p.Done? then EndStore(p.end) else StoreIn(p.w) }

  /** The store a machine has left behind. */
  function StoreOf(c: Machine): Store {
    match c.control
    case Enter(_, _, _, w) => StoreIn(w)
    case At(_, _, _, w) => StoreIn(w)
    case Doing(plan, _, _) => PlanStore(plan)
    case Joining(_, _, _, _, w, _, _) => StoreIn(w)
    case Calling(_, _, w) => StoreIn(w)
    case Back(r) => StoreIn(r.w)
  }

  /** Machine `id` takes a step; one that has ended, or waits for a task that has not, does nothing. */
  function StepOf(env: Env, sys: System, id: nat): System {
    if id >= |sys.procs| then sys
    else
      var p := sys.procs[id];
      var c := Load(p.c, sys.store);
      match Next(env, c)
      case Halt(_) => sys
      case Move(d) => sys.(procs := sys.procs[id := p.(c := d)], store := StoreOf(d))
      case Spawn(name, child, loc, d) =>
        sys.(procs := sys.procs[id := Proc(d, p.handles[name := Handle(|sys.procs|, loc)])] + [Proc(child, map[])],
             store := StoreOf(d))
      case Await(name) =>
        if name !in p.handles then sys.(procs := sys.procs[id := p.(c := Resume(c, None))])
        else
          var h := p.handles[name];
          if h.id >= |sys.procs| then sys
          else
            match Next(env, sys.procs[h.id].c)
            case Halt(r) =>
              sys.(procs := sys.procs[id := Proc(Resume(c, Some(Handed(r, h.loc))), p.handles - {name})],
                   awaited := sys.awaited + [h.id])
            case _ => sys
  }

  function RunOf(env: Env, sys: System, schedule: seq<nat>): System {
    if schedule == [] then sys
    else StepOf(env, RunOf(env, sys, schedule[..|schedule| - 1]), schedule[|schedule| - 1])
  }

  /** A run that has just been entered, alone in the system. */
  function Launch(p: Pipeline, input: Json, w: World): System {
    System([Proc(Config(Enter(p, input, None, w), []), map[])], StoreIn(w), [])
  }

  /** The main run has ended. */
  predicate Over(sys: System, r: Run) {
    sys.procs != [] && sys.procs[0].c.control == Back(r) && sys.procs[0].c.stack == []
  }

  // ----- handles -----

  /** The machine that the handle `n` of machine `i` leads to. */
  function Held(procs: seq<Proc>, i: nat, n: string): Option<nat> {
    if i < |procs| && n in procs[i].handles then Some(procs[i].handles[n].id) else None
  }

  /** Handles lead to later machines, none is held twice or after its result was taken, and none was taken twice. */
  ghost predicate Owned(procs: seq<Proc>, awaited: seq<nat>) {
    && (forall i: nat, n :: Held(procs, i, n).Some? ==>
          i < Held(procs, i, n).value < |procs| && Held(procs, i, n).value !in awaited)
    && (forall i: nat, m, j: nat, n ::
          Held(procs, i, m).Some? && Held(procs, i, m) == Held(procs, j, n) ==> i == j && m == n)
    && (forall k :: 0 <= k < |awaited| ==> 0 < awaited[k] < |procs|)
    && (forall k, l :: 0 <= k < l < |awaited| ==> awaited[k] != awaited[l])
  }

  lemma MoveOwned(procs: seq<Proc>, awaited: seq<nat>, id: nat, c: Machine)
    requires Owned(procs, awaited) && id < |procs|
    ensures Owned(procs[id := procs[id].(c := c)], awaited)
  {
    var moved := procs[id := procs[id].(c := c)];
    assert forall i: nat, n :: Held(moved, i, n) == Held(procs, i, n);
  }

  lemma SpawnOwned(procs: seq<Proc>, awaited: seq<nat>, id: nat, name: string, child: Machine, loc: Location,
                   c: Machine)
    requires Owned(procs, awaited) && id < |procs|
    ensures Owned(procs[id := Proc(c, procs[id].handles[name := Handle(|procs|, loc)])] + [Proc(child, map[])], awaited)
  {
    var spawned := procs[id := Proc(c, procs[id].handles[name := Handle(|procs|, loc)])] + [Proc(child, map[])];
    forall i: nat, n ensures Held(spawned, i, n) == if i == id && n == name then Some(|procs|) else Held(procs, i, n) {
    }
    hide Held;
  }

  lemma TakeOwned(procs: seq<Proc>, awaited: seq<nat>, id: nat, name: string, c: Machine)
    requires Owned(procs, awaited) && id < |procs| && name in procs[id].handles
    ensures Owned(procs[id := Proc(c, procs[id].handles - {name})], awaited + [procs[id].handles[name].id])
  {
    var taken := procs[id := Proc(c, procs[id].handles - {name})];
    var h := procs[id].handles[name].id;
    assert Held(procs, id, name) == Some(h);
    forall i: nat, n ensures Held(taken, i, n) == if i == id && n == name then None else Held(procs, i, n) {
    }
    hide Held;
  }

  lemma StepOwned(env: Env, sys: System, id: nat)
    requires Owned(sys.procs, sys.awaited)
    ensures var t := StepOf(env, sys, id);
            Owned(t.procs, t.awaited) && |sys.procs| <= |t.procs|
  {
    hide Next, Load, StoreOf, Resume, Handed, Owned;
    if id < |sys.procs| {
      var c := Load(sys.procs[id].c, sys.store);
      match Next(env, c)
      case Halt(_) =>
      case Move(d) => MoveOwned(sys.procs, sys.awaited, id, d);
      case Spawn(name, child, loc, d) => SpawnOwned(sys.procs, sys.awaited, id, name, child, loc, d);
      case Await(name) =>
        if name in sys.procs[id].handles {
          var h := sys.procs[id].handles[name];
          if h.id < |sys.procs| && Next(env, sys.procs[h.id].c).Halt? {
            var result := Next(env, sys.procs[h.id].c).result;
            TakeOwned(sys.procs, sys.awaited, id, name, Resume(c, Some(Handed(result, h.loc))));
          }
        } else {
          MoveOwned(sys.procs, sys.awaited, id, Resume(c, None));
        }
    }
  }

  lemma {:induction false} RunOwned(env: Env, sys: System, schedule: seq<nat>)
    requires Owned(sys.procs, sys.awaited)
    ensures var t := RunOf(env, sys, schedule); Owned(t.procs, t.awaited)
  {
    hide StepOf, Owned;
    if schedule != [] {
      RunOwned(env, sys, schedule[..|schedule| - 1]);
      StepOwned(env, RunOf(env, sys, schedule[..|schedule| - 1]), schedule[|schedule| - 1]);
    }
  }

  /** Under every schedule, with shared stores or not, the result of each task is taken at most once, and only of
      tasks that were spawned. */
  lemma AwaitedOnce(env: Env, p: Pipeline, input: Json, w: World, schedule: seq<nat>)
    ensures var t := RunOf(env, Launch(p, input, w), schedule);
            && (forall k :: 0 <= k < |t.awaited| ==> 0 < t.awaited[k] < |t.procs|)
            && (forall k, l :: 0 <= k < l < |t.awaited| ==> t.awaited[k] != t.awaited[l])
  {
    RunOwned(env, Launch(p, input, w), schedule);
    hide RunOf;
  }
}

/** `@async` as interleaving: the main run and its tasks are machines that take one small step at a time, in any
    order. Here each machine works on a store of its own and sees another only when it joins it, so the schedule cannot
    change a result; `Systems` puts them on one shared store. */
module Scheduling {
  import opened Base
  import opened JsonValues
  import opened Ast
  import opened Responses
  import opened Runtime
  import opened Steps
  import opened Interpreter

  /** What a machine is about to do. */
  datatype Control =
    | Enter(pipeline: Pipeline, input: Json, handled: Option<string>, w: World)
    | At(steps: seq<Step>, idx: nat, frame: Frame, w: World)
    | Doing(plan: Plan, steps: seq<Step>, idx: nat)
    | Joining(names: seq<string>, results: map<string, Json>, input: Json, pending: Pending, w: World,
              steps: seq<Step>, idx: nat)
    | Calling(call: Invocation, input: Json, w: World)
    | Back(result: Run)

  /** A step waiting for its nested run, and the steps after it. */
  datatype Suspended = Suspended(kont: Kont, steps: seq<Step>, idx: nat)

  datatype Config = Config(control: Control, stack: seq<Suspended>)

  /** Suspended steps and plans only ever continue regular steps as regular steps. */
  predicate Proper(c: Config) {
    && (forall i :: 0 <= i < |c.stack| ==> WellFormed(c.stack[i].kont))
    && match c.control
       case Doing(plan, _, _) => Sound(plan)
       case Joining(_, _, _, pending, _, _, _) => pending.step.Regular?
       case Back(r) => !r.Stuck?
       case _ => true
  }

  const IDLE: World := World(Shared(map[], map[], map[], None, Null, Null), map[], EMPTY, [])

  type Machine = c: Config | Proper(c) witness Config(Enter(Pipeline([]), Null, None, IDLE), [])

  datatype Action =
    | Halt(result: Run)
    | Move(next: Machine)
    | Spawn(name: string, child: Machine, loc: Location, next: Machine)
    | Await(name: string)

  const NOWHERE: Location := Location(None, 0, 0, 0, None)

  function ForkAction(name: string, job: Job, f: Frame, w: World, steps: seq<Step>, idx: nat,
                      stack: seq<Suspended>): Action
    requires forall i :: 0 <= i < |stack| ==> WellFormed(stack[i].kont)
  {
    var next := Config(At(steps, idx + 1, f, w), stack);
    match job
    case JobFailed(e) => Spawn(name, Config(Back(Failed(e, TaskWorld(w))), []), NOWHERE, next)
    case JobCall(call, input, loc) => Spawn(name, Config(Calling(call, input, TaskWorld(w)), []), loc, next)
    case JobPipeline(p, input, loc) => Spawn(name, Config(Enter(p, input, None, TaskWorld(w)), []), loc, next)
  }

  function AfterEnd(env: Env, end: StepEnd, steps: seq<Step>, idx: nat, stack: seq<Suspended>): Machine
    requires forall i :: 0 <= i < |stack| ==> WellFormed(stack[i].kont)
  {
    match end
    case Continue(f, w) => Config(At(steps, idx + 1, f, w), stack)
    case Return(out, f, w) => Config(Back(Value(out, Settle(env, f.saves, out, w))), stack)
    case Raised(e, w) => Config(Back(Failed(e, w)), stack)
  }

  /** One small step of a machine. */
  function Next(env: Env, c: Machine): (a: Action)
    ensures a.Await? ==> c.control.Joining? && c.control.names != [] && a.name == c.control.names[0]
    ensures a.Halt? ==> c == Config(Back(a.result), []) && !a.result.Stuck?
  {
    match c.control
    case Enter(p, input, handled, w) => Move(Config(At(p.steps, 0, Start(input, handled), w), c.stack))
    case Calling(call, input, w) => Move(Config(Back(RunCall(env, call, input, w)), c.stack))
    case At(steps, idx, f, w) =>
      if steps == [] then Move(AfterEnd(env, Return(Response(f.state, f.contentType, f.status), f, w), [], idx,
                                        c.stack))
      else if Skips(steps[0], Recheck(f)) then Move(Config(At(steps[1..], idx + 1, Recheck(f), w), c.stack))
      else Move(Config(Doing(PlanStep(env, steps[0], idx, steps[1..], Recheck(f), w), steps[1..], idx), c.stack))
    case Doing(plan, steps, idx) =>
      (match plan
       case Done(end) => Move(AfterEnd(env, end, steps, idx, c.stack))
       case Call(p, input, handled, k, w) =>
         Move(Config(Enter(p, input, handled, w), [Suspended(k, steps, idx)] + c.stack))
       case Fork(name, job, f, w) => ForkAction(name, job, f, w, steps, idx, c.stack)
       case Gather(names, input, pending, w) =>
         Move(Config(Joining(names, map[], input, pending, w, steps, idx), c.stack)))
    case Joining(names, results, input, pending, w, steps, idx) =>
      if names == [] then Move(Config(Doing(Done(FinishJoin(env, pending, input, results, w)), steps, idx), c.stack))
      else Await(names[0])
    case Back(r) =>
      if c.stack == [] then Halt(r)
      else
        var top := c.stack[0];
        Move(Config(Doing(Finish(env, top.kont, r), top.steps, top.idx), c.stack[1..]))
  }

  /** A join goes on to its next name, with the awaited result if there was such a task. */
  function Resume(c: Machine, found: Option<Json>): Machine
    requires c.control.Joining? && c.control.names != []
  {
    var j := c.control;
    var results := if found.Some? then j.results[j.names[0] := found.value] else j.results;
    c.(control := j.(names := j.names[1..], results := results))
  }

  // ----- systems of machines -----

  /** A machine with the handles of the tasks it has spawned and not yet joined. */
  datatype Node = Node(c: Machine, kids: map<string, Kid>)
  datatype Kid = Kid(node: Node, loc: Location)

  function Handed(r: Run, loc: Location): Json
    requires !r.Stuck?
  {
    TaskJson(JobOutcome(r, loc))
  }

  function LocalStep(env: Env, n: Node): Node {
    match Next(env, n.c)
    case Halt(_) => n
    case Move(c) => n.(c := c)
    case Spawn(name, child, loc, c) => Node(c, n.kids[name := Kid(Node(child, map[]), loc)])
    case Await(name) =>
      if name !in n.kids then n.(c := Resume(n.c, None))
      else
        match Next(env, n.kids[name].node.c)
        case Halt(r) => Node(Resume(n.c, Some(Handed(r, n.kids[name].loc))), n.kids - {name})
        case _ => n
  }

  function WithKid(n: Node, name: string, node: Node): Node
    requires name in n.kids
  {
    n.(kids := n.kids[name := n.kids[name].(node := node)])
  }

  /** Let the machine at the end of a path of task names take a step; a blocked or absent one does nothing. */
  function StepAt(env: Env, n: Node, path: seq<string>): Node
    decreases |path|
  {
    if path == [] then LocalStep(env, n)
    else if path[0] !in n.kids then n
    else WithKid(n, path[0], StepAt(env, n.kids[path[0]].node, path[1..]))
  }

  function RunSchedule(env: Env, n: Node, schedule: seq<seq<string>>): Node
    decreases |schedule|
  {
    if schedule == [] then n else RunSchedule(env, StepAt(env, n, schedule[0]), schedule[1..])
  }

  predicate Halted(n: Node, r: Run) { n.c.control == Back(r) && n.c.stack == [] }

  // ----- what a node computes, whatever the schedule -----

  /** Evaluate tasks when they are joined; `None` when `bound` steps do not suffice. */
  function Eval(env: Env, bound: nat, n: Node): (r: Option<Run>)
    ensures r.Some? ==> !r.value.Stuck?
    decreases bound
  {
    match Next(env, n.c)
    case Halt(r) => Some(r)
    case Move(c) => if bound == 0 then None else Eval(env, bound - 1, n.(c := c))
    case Spawn(name, child, loc, c) =>
      if bound == 0 then None else Eval(env, bound - 1, Node(c, n.kids[name := Kid(Node(child, map[]), loc)]))
    case Await(name) =>
      if bound == 0 then None
      else if name !in n.kids then Eval(env, bound - 1, n.(c := Resume(n.c, None)))
      else
        match Eval(env, bound - 1, n.kids[name].node)
        case None => None
        case Some(r) => Eval(env, bound - 1, Node(Resume(n.c, Some(Handed(r, n.kids[name].loc))), n.kids - {name}))
  }

  lemma {:induction false} EvalMore(env: Env, bound: nat, more: nat, n: Node)
    requires bound <= more && Eval(env, bound, n).Some?
    ensures Eval(env, more, n) == Eval(env, bound, n)
    decreases bound
  {
    hide Next, Resume, Handed;
    match Next(env, n.c)
    case Halt(_) =>
    case Move(c) => EvalMore(env, bound - 1, more - 1, n.(c := c));
    case Spawn(name, child, loc, c) =>
      EvalMore(env, bound - 1, more - 1, Node(c, n.kids[name := Kid(Node(child, map[]), loc)]));
    case Await(name) =>
      if name !in n.kids {
        EvalMore(env, bound - 1, more - 1, n.(c := Resume(n.c, None)));
      } else {
        EvalMore(env, bound - 1, more - 1, n.kids[name].node);
        var r := Eval(env, bound - 1, n.kids[name].node).value;
        EvalMore(env, bound - 1, more - 1, Node(Resume(n.c, Some(Handed(r, n.kids[name].loc))), n.kids - {name}));
      }
  }

  /** A step of the machine itself does not change what the node computes. */
  lemma LocalStepBack(env: Env, bound: nat, n: Node)
    requires Eval(env, bound, LocalStep(env, n)).Some?
    ensures Eval(env, bound + 1, n) == Eval(env, bound, LocalStep(env, n))
  {
    hide Next, Resume, Handed;
    var a := Next(env, n.c);
    if LocalStep(env, n) == n {
      EvalMore(env, bound, bound + 1, n);
    } else if a.Await? && a.name in n.kids {
      assert Next(env, n.kids[a.name].node.c).Halt?;
    }
  }

  /** Neither does a step of a task below it. */
  lemma {:induction false} KidStepBack(env: Env, bound: nat, n: Node, name: string, path: seq<string>)
    requires name in n.kids
    requires Eval(env, bound, WithKid(n, name, StepAt(env, n.kids[name].node, path))).Some?
    ensures Eval(env, bound + 1, n) == Eval(env, bound, WithKid(n, name, StepAt(env, n.kids[name].node, path)))
    decreases |path|, 3, bound, 1
  {
    hide Next, Resume, Handed, StepAt;
    var stepped := StepAt(env, n.kids[name].node, path);
    var m := WithKid(n, name, stepped);
    match Next(env, n.c)
    case Halt(_) =>
    case Move(c) =>
      assert m.(c := c) == WithKid(n.(c := c), name, stepped);
      KidStepBack(env, bound - 1, n.(c := c), name, path);
    case Spawn(other, child, loc, c) => KidSpawnBack(env, bound, n, name, path);
    case Await(other) => KidAwaitBack(env, bound, n, name, path);
  }

  lemma {:induction false} KidSpawnBack(env: Env, bound: nat, n: Node, name: string, path: seq<string>)
    requires name in n.kids && Next(env, n.c).Spawn?
    requires Eval(env, bound, WithKid(n, name, StepAt(env, n.kids[name].node, path))).Some?
    ensures Eval(env, bound + 1, n) == Eval(env, bound, WithKid(n, name, StepAt(env, n.kids[name].node, path)))
    decreases |path|, 3, bound, 0
  {
    hide Next, StepAt;
    var stepped := StepAt(env, n.kids[name].node, path);
    var m := WithKid(n, name, stepped);
    var a := Next(env, n.c);
    var kid := Kid(Node(a.child, map[]), a.loc);
    var next := Node(a.next, n.kids[a.name := kid]);
    if a.name == name {
      assert m.kids[name := kid] == n.kids[name := kid];
      EvalMore(env, bound - 1, bound, next);
    } else {
      assert m.kids[a.name := kid] == WithKid(next, name, stepped).kids;
      KidStepBack(env, bound - 1, next, name, path);
    }
  }

  /** How a join evaluates. */
  lemma EvalAwait(env: Env, bound: nat, n: Node)
    requires Next(env, n.c).Await?
    ensures Eval(env, bound, n).Some? ==> bound > 0
    ensures bound > 0 ==>
              var name := Next(env, n.c).name;
              if name !in n.kids then Eval(env, bound, n) == Eval(env, bound - 1, n.(c := Resume(n.c, None)))
              else
                var kid := n.kids[name];
                var r := Eval(env, bound - 1, kid.node);
                Eval(env, bound, n) ==
                  if r.None? then None
                  else Eval(env, bound - 1, Node(Resume(n.c, Some(Handed(r.value, kid.loc))), n.kids - {name}))
  {
    hide Next, Resume, Handed;
  }

  lemma {:induction false} KidAwaitBack(env: Env, bound: nat, n: Node, name: string, path: seq<string>)
    requires name in n.kids && Next(env, n.c).Await?
    requires Eval(env, bound, WithKid(n, name, StepAt(env, n.kids[name].node, path))).Some?
    ensures Eval(env, bound + 1, n) == Eval(env, bound, WithKid(n, name, StepAt(env, n.kids[name].node, path)))
    decreases |path|, 3, bound, 0
  {
    hide Next, Resume, Handed, StepAt, Eval;
    var stepped := StepAt(env, n.kids[name].node, path);
    var m := WithKid(n, name, stepped);
    var other := Next(env, n.c).name;
    EvalAwait(env, bound, m);
    EvalAwait(env, bound + 1, n);
    if other !in n.kids {
      assert m.(c := Resume(m.c, None)) == WithKid(n.(c := Resume(n.c, None)), name, stepped);
      KidStepBack(env, bound - 1, n.(c := Resume(n.c, None)), name, path);
    } else {
      var r := Eval(env, bound - 1, m.kids[other].node).value;
      var next := Node(Resume(n.c, Some(Handed(r, n.kids[other].loc))), n.kids - {other});
      if other == name {
        StepBack(env, bound - 1, n.kids[name].node, path);
        assert m.kids - {name} == n.kids - {name};
        EvalMore(env, bound - 1, bound, next);
      } else {
        EvalMore(env, bound - 1, bound, n.kids[other].node);
        assert m.kids - {other} == WithKid(next, name, stepped).kids;
        KidStepBack(env, bound - 1, next, name, path);
      }
    }
  }

  lemma {:induction false} StepBack(env: Env, bound: nat, n: Node, path: seq<string>)
    requires Eval(env, bound, StepAt(env, n, path)).Some?
    ensures Eval(env, bound + 1, n) == Eval(env, bound, StepAt(env, n, path))
    decreases |path|, 2, 0
  {
    hide Eval;
    if path == [] {
      LocalStepBack(env, bound, n);
    } else if path[0] !in n.kids {
      EvalMore(env, bound, bound + 1, n);
    } else {
      KidStepBack(env, bound, n, path[0], path[1..]);
    }
  }

  lemma {:induction false} ScheduleBack(env: Env, bound: nat, n: Node, schedule: seq<seq<string>>)
    requires Eval(env, bound, RunSchedule(env, n, schedule)).Some?
    ensures Eval(env, bound + |schedule|, n) == Eval(env, bound, RunSchedule(env, n, schedule))
    decreases |schedule|
  {
    hide Eval, StepAt;
    if schedule != [] {
      var m := StepAt(env, n, schedule[0]);
      ScheduleBack(env, bound, m, schedule[1..]);
      StepBack(env, bound + |schedule| - 1, n, schedule[0]);
    }
  }

  lemma EvalHalted(env: Env, n: Node, r: Run)
    requires Halted(n, r)
    ensures Eval(env, 0, n) == Some(r)
  {
  }

  /** Any two schedules that bring the main machine to an end bring it to the same end, as long as stores are not
      shared. */
  lemma DetachedSchedulesAgree(env: Env, n: Node, one: seq<seq<string>>, two: seq<seq<string>>, r: Run, s: Run)
    requires Halted(RunSchedule(env, n, one), r) && Halted(RunSchedule(env, n, two), s)
    ensures r == s
  {
    hide StepAt, RunSchedule, Eval;
    EvalHalted(env, RunSchedule(env, n, one), r);
    EvalHalted(env, RunSchedule(env, n, two), s);
    ScheduleBack(env, 0, n, one);
    ScheduleBack(env, 0, n, two);
    EvalMore(env, |one|, |one| + |two|, n);
    EvalMore(env, |two|, |one| + |two|, n);
  }
}

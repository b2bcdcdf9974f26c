/** What the tags of a condition mean, said over the switches, the environment and the guard's answers themselves, and
    what that means for the steps and cases that carry them. */
module Conditions {
  import opened Base
  import opened JsonValues
  import opened Tags
  import opened Ast
  import opened Responses
  import opened Runtime
  import opened Steps
  import opened Interpreter

  /** The name is there, and with value true: what is not set is off. */
  predicate On(switches: map<string, bool>, name: string) { (name, true) in switches.Items }

  /** An unset environment is taken for the one that is asked for; a guard that cannot be evaluated fails either way;
      a tag without the arguments it needs, or of any other name, never blocks. */
  predicate Holds(tag: Tag, env: Env, shared: Shared, state: Json) {
    && (tag.name == "when" ==> forall name :: name in tag.args ==> On(shared.conditions, name) == !tag.negated)
    && (tag.name == "flag" ==> forall name :: name in tag.args ==> On(shared.flags, name) == !tag.negated)
    && (tag.name == "env" && |tag.args| == 1 ==>
          (env.environment == None || env.environment == Some(tag.args[0])) == !tag.negated)
    && (tag.name == "guard" && tag.args != [] ==> env.guard(tag.args[0], state) == Some(!tag.negated))
  }

  predicate Satisfied(e: TagExpr, env: Env, shared: Shared, state: Json) {
    match e
    case Single(tag) => Holds(tag, env, shared, state)
    case And(l, r) => Satisfied(l, env, shared, state) && Satisfied(r, env, shared, state)
    case Or(l, r) => Satisfied(l, env, shared, state) || Satisfied(r, env, shared, state)
  }

  /** A step without a condition always runs. */
  predicate Runs(condition: Option<TagExpr>, env: Env, shared: Shared, state: Json) {
    condition == None || Satisfied(condition.value, env, shared, state)
  }

  lemma SwitchOn(switches: map<string, bool>, name: string)
    ensures On(switches, name) <==> name in switches && switches[name]
  {
  }

  lemma SwitchesMean(tag: Tag, switches: map<string, bool>)
    ensures CheckSwitches(tag, switches) <==> forall name :: name in tag.args ==> On(switches, name) == !tag.negated
  {
    hide On;
    forall name ensures On(switches, name) <==> Enabled(switches, name) { SwitchOn(switches, name); }
    if CheckSwitches(tag, switches) {
      forall name | name in tag.args ensures On(switches, name) == !tag.negated {
        var i :| 0 <= i < |tag.args| && tag.args[i] == name;
      }
    }
  }

  /** A single tag holds as said. */
  lemma TagMeans(tag: Tag, env: Env, shared: Shared, state: Json)
    ensures CheckTag(tag, Context(env, shared), state) <==> Holds(tag, env, shared, state)
  {
    SwitchesMean(tag, shared.flags);
    SwitchesMean(tag, shared.conditions);
    hide CheckSwitches, On;
  }

  /** A condition holds as its tags do, joined by its operators. */
  lemma {:induction false} ConditionMeans(e: TagExpr, env: Env, shared: Shared, state: Json)
    ensures CheckTagExpr(e, Context(env, shared), state) <==> Satisfied(e, env, shared, state)
  {
    hide CheckTag, Holds;
    match e
    case Single(tag) => TagMeans(tag, env, shared, state);
    case And(l, r) =>
      ConditionMeans(l, env, shared, state);
      ConditionMeans(r, env, shared, state);
    case Or(l, r) =>
      ConditionMeans(l, env, shared, state);
      ConditionMeans(r, env, shared, state);
  }

  lemma RunsMeans(condition: Option<TagExpr>, env: Env, shared: Shared, state: Json)
    ensures ShouldExecute(condition, env, shared, state) <==> Runs(condition, env, shared, state)
  {
    if condition.Some? { ConditionMeans(condition.value, env, shared, state); }
    hide CheckTagExpr, Satisfied;
  }

  /** A name that nobody set blocks `@when` and `@flag` of it and no tag of another kind; it is what their negations ask
      for. */
  lemma UnsetFailsClosed(name: string, args: seq<string>, env: Env, shared: Shared, state: Json)
    requires name in args && name !in shared.conditions && name !in shared.flags
    ensures forall kind | kind in ["when", "flag"] ::
        !CheckTagExpr(Single(Tag(kind, false, args)), Context(env, shared), state)
        && CheckTagExpr(Single(Tag(kind, true, [name])), Context(env, shared), state)
  {
    hide CheckTagExpr, Context;
    forall kind | kind in ["when", "flag"]
      ensures !CheckTagExpr(Single(Tag(kind, false, args)), Context(env, shared), state)
      ensures CheckTagExpr(Single(Tag(kind, true, [name])), Context(env, shared), state)
    {
      ConditionMeans(Single(Tag(kind, false, args)), env, shared, state);
      ConditionMeans(Single(Tag(kind, true, [name])), env, shared, state);
    }
  }

  // ----- arguments of tags -----

  /** The tags of an expression from left to right. */
  function Leaves(e: TagExpr): seq<Tag> {
    match e
    case Single(tag) => [tag]
    case And(l, r) => Leaves(l) + Leaves(r)
    case Or(l, r) => Leaves(l) + Leaves(r)
  }

  predicate Occurs(tag: Tag, e: TagExpr) { tag in Leaves(e) }

  /** The tag names the argument `a`: it is not negated and has no other. */
  predicate NamesOne(tag: Tag, name: string) { tag.name == name && !tag.negated && |tag.args| == 1 }

  /** `arg` is what the first such tag among `tags` names, if there is one. */
  predicate FirstNamed(tags: seq<Tag>, name: string, arg: Option<string>) {
    match arg
    case None => forall i :: 0 <= i < |tags| ==> !NamesOne(tags[i], name)
    case Some(a) =>
      (exists i :: 0 <= i < |tags| && tags[i] == Tag(name, false, [a])
                   && forall j :: 0 <= j < i ==> !NamesOne(tags[j], name))
  }

  lemma FirstNamedAppend(a: seq<Tag>, b: seq<Tag>, name: string, x: Option<string>, y: Option<string>)
    requires FirstNamed(a, name, x) && FirstNamed(b, name, y)
    ensures FirstNamed(a + b, name, if x.Some? then x else y)
  {
    hide NamesOne;
    if x.Some? {
      var i :| 0 <= i < |a| && a[i] == Tag(name, false, [x.value]) && forall j :: 0 <= j < i ==> !NamesOne(a[j], name);
      assert (a + b)[i] == a[i];
      assert forall j :: 0 <= j < i ==> (a + b)[j] == a[j];
    } else if y.Some? {
      var i :| 0 <= i < |b| && b[i] == Tag(name, false, [y.value]) && forall j :: 0 <= j < i ==> !NamesOne(b[j], name);
      assert (a + b)[|a| + i] == b[i];
      forall j | 0 <= j < |a| + i ensures !NamesOne((a + b)[j], name) {
        assert (a + b)[j] == if j < |a| then a[j] else b[j - |a|];
      }
    }
  }

  /** `@async`, `@result` and `@error` take their argument from the leftmost tag of the name with exactly one argument
      and no negation. */
  lemma {:induction false} ArgumentMeans(e: TagExpr, name: string)
    ensures FirstNamed(Leaves(e), name, TagArgument(e, name))
  {
    match e
    case Single(tag) =>
      assert NamesOne(tag, name) ==> Leaves(e)[0] == Tag(name, false, [tag.args[0]]);
    case And(l, r) =>
      ArgumentMeans(l, name);
      ArgumentMeans(r, name);
      FirstNamedAppend(Leaves(l), Leaves(r), name, TagArgument(l, name), TagArgument(r, name));
    case Or(l, r) =>
      ArgumentMeans(l, name);
      ArgumentMeans(r, name);
      FirstNamedAppend(Leaves(l), Leaves(r), name, TagArgument(l, name), TagArgument(r, name));
  }

  lemma ConditionNames(condition: Option<TagExpr>, name: string)
    ensures FirstNamed(if condition.Some? then Leaves(condition.value) else [], name,
                       ConditionArgument(condition, name))
  {
    if condition.Some? { ArgumentMeans(condition.value, name); }
    hide TagArgument, Leaves;
  }

  // ----- steps -----

  /** A regular step whose condition fails changes nothing, whatever it is. */
  lemma SkippedStep(env: Env, fuel: nat, s: Step, idx: nat, rest: seq<Step>, f: Frame, w: World)
    requires s.Regular? && !Runs(s.condition, env, w.shared, f.state)
    ensures Drive(env, fuel, PlanStep(env, s, idx, rest, f, w)) == Ended(Continue(f, w))
  {
    hide Runs, ShouldExecute;
    RunsMeans(s.condition, env, w.shared, f.state);
  }

  /** Nothing behind the step would still run. */
  predicate NothingRuns(rest: seq<Step>, env: Env, shared: Shared, state: Json) {
    forall s :: s in rest ==> s.Regular? && !Runs(s.condition, env, shared, state)
  }

  lemma LookaheadMeans(rest: seq<Step>, env: Env, shared: Shared, state: Json)
    ensures IsLast(rest, env, shared, state) <==> NothingRuns(rest, env, shared, state)
  {
    hide Runs, ShouldExecute;
    forall s | s in rest && s.Regular?
      ensures ShouldExecute(s.condition, env, shared, state) <==> Runs(s.condition, env, shared, state)
    {
      RunsMeans(s.condition, env, shared, state);
    }
    if IsLast(rest, env, shared, state) {
      forall s | s in rest ensures s.Regular? && !Runs(s.condition, env, shared, state) {
        var i :| 0 <= i < |rest| && rest[i] == s;
      }
    }
  }

  /** The case a `dispatch` takes is `i`: the first that holds; the number of cases stands for the default. */
  predicate FirstHolding(cases: seq<DispatchBranch>, env: Env, shared: Shared, state: Json, i: nat) {
    && i <= |cases|
    && (forall j :: 0 <= j < i ==> !Satisfied(cases[j].condition, env, shared, state))
    && (i < |cases| ==> Satisfied(cases[i].condition, env, shared, state))
  }

  lemma {:induction false} CaseMeans(cases: seq<DispatchBranch>, default: Option<Pipeline>, env: Env, shared: Shared,
                                     state: Json, i: nat)
    requires FirstHolding(cases, env, shared, state, i)
    ensures SelectCase(cases, default, env, shared, state) == if i < |cases| then Some(cases[i].pipeline) else default
    decreases |cases|
  {
    hide Satisfied, CheckTagExpr;
    if cases != [] {
      ConditionMeans(cases[0].condition, env, shared, state);
      if i > 0 { CaseMeans(cases[1..], default, env, shared, state, i - 1); }
    }
  }
}

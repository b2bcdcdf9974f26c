/** The flag analysis is exact: where it answers, it says yes if and only if a step it visits asks for flags. */
module FlagTags {
  import opened Base
  import opened Tags
  import opened Ast
  import opened Runtime
  import opened Conditions
  import opened Footprints
  import opened FlagAnalysis
  import opened Termination

  // ----- tags -----

  predicate CarriesFlag(e: TagExpr) { exists tag :: tag in Leaves(e) && tag.name == "flag" }

  predicate DeclaresFlags(e: TagExpr) { exists tag :: tag in Leaves(e) && tag.name == "needs" && "flags" in tag.args }

  lemma {:induction false} FlagOccurs(e: TagExpr)
    ensures HasFlag(e) <==> CarriesFlag(e)
  {
    match e
    case Single(tag) => assert tag in Leaves(e);
    case And(l, r) =>
      FlagOccurs(l);
      FlagOccurs(r);
      assert forall tag :: tag in Leaves(e) <==> tag in Leaves(l) || tag in Leaves(r);
    case Or(l, r) =>
      FlagOccurs(l);
      FlagOccurs(r);
      assert forall tag :: tag in Leaves(e) <==> tag in Leaves(l) || tag in Leaves(r);
  }

  lemma {:induction false} NeedsOccurs(e: TagExpr)
    ensures HasNeedsFlags(e) <==> DeclaresFlags(e)
  {
    match e
    case Single(tag) => assert tag in Leaves(e);
    case And(l, r) =>
      NeedsOccurs(l);
      NeedsOccurs(r);
      assert forall tag :: tag in Leaves(e) <==> tag in Leaves(l) || tag in Leaves(r);
    case Or(l, r) =>
      NeedsOccurs(l);
      NeedsOccurs(r);
      assert forall tag :: tag in Leaves(e) <==> tag in Leaves(l) || tag in Leaves(r);
  }

  /** The step's own condition carries `@flag` or `@needs(flags)`, or a case of it carries `@flag`. */
  predicate Asks(s: Step) {
    match s
    case Regular(_, _, _, _, condition, _, _) =>
      condition.Some? && (CarriesFlag(condition.value) || DeclaresFlags(condition.value))
    case Dispatch(cases, _, _) => exists i :: 0 <= i < |cases| && CarriesFlag(cases[i].condition)
    case _ => false
  }

  // ----- what the analysis visits -----

  /** The step is one of `steps`, or is come to from one of them: inside of it, or through a name looked up
      literally, by at most `n` names. Steps that run as tasks are no exception. */
  ghost predicate Visited(env: Env, n: nat, steps: seq<Step>, s: Step)
    decreases n, steps
  {
    exists i :: 0 <= i < |steps| && VisitedFrom(env, n, steps[i], s)
  }

  ghost predicate VisitedFrom(env: Env, n: nat, from: Step, s: Step)
    decreases n, from
  {
    || s == from
    || (n > 0 && LiteralTarget(env, from).Some? && Visited(env, n - 1, LiteralTarget(env, from).value.steps, s))
    || (exists i :: 0 <= i < |Parts(from)| && Visited(env, n, Parts(from)[i].steps, s))
  }

  ghost predicate AskedFor(env: Env, steps: seq<Step>) {
    exists n: nat, s :: Visited(env, n, steps, s) && Asks(s)
  }

  lemma {:induction false} NoCaseAsks(env: Env, n: nat, cases: seq<DispatchBranch>)
    requires CasesNeedFlags(env, n, cases) == Some(false)
    ensures forall i :: 0 <= i < |cases| ==> !CarriesFlag(cases[i].condition)
  {
    forall i | 0 <= i < |cases| ensures !CarriesFlag(cases[i].condition) {
      CleanCases(env, n, cases, i);
      FlagOccurs(cases[i].condition);
    }
  }

  lemma NoOwnTag(env: Env, n: nat, s: Step)
    requires StepNeedsFlags(env, n, s) == Some(false)
    ensures !Asks(s)
  {
    hide NeedsFlags, ReferencedPipeline, CarriesFlag, DeclaresFlags;
    match s
    case Regular(_, _, _, _, condition, _, _) =>
      if condition.Some? {
        FlagOccurs(condition.value);
        NeedsOccurs(condition.value);
      }
    case Dispatch(cases, default, _) => NoCaseAsks(env, n, cases);
    case _ =>
  }

  /** After a no, nothing that is visited asks, by however many names it is come to. */
  lemma {:induction false} NoVisitedAsks(env: Env, n: nat, steps: seq<Step>, m: nat, s: Step)
    requires NeedsFlags(env, n, steps) == Some(false) && Visited(env, m, steps, s)
    ensures !Asks(s)
    decreases n, steps
  {
    hide NeedsFlags, StepNeedsFlags, Asks, VisitedFrom;
    var i :| 0 <= i < |steps| && VisitedFrom(env, m, steps[i], s);
    StepsSayNo(env, n, steps, i);
    NoneFromAsks(env, n, steps[i], m, s);
  }

  lemma {:induction false} NoneFromAsks(env: Env, n: nat, from: Step, m: nat, s: Step)
    requires StepNeedsFlags(env, n, from) == Some(false) && VisitedFrom(env, m, from, s)
    ensures !Asks(s)
    decreases n, from
  {
    StepSaysNo(env, n, from);
    NoOwnTag(env, n, from);
    hide NeedsFlags, StepNeedsFlags, Asks, LiteralTarget, Visited;
    if s != from {
      if m > 0 && LiteralTarget(env, from).Some? && Visited(env, m - 1, LiteralTarget(env, from).value.steps, s) {
        NoVisitedAsks(env, n - 1, LiteralTarget(env, from).value.steps, m - 1, s);
      } else {
        var i :| 0 <= i < |Parts(from)| && Visited(env, m, Parts(from)[i].steps, s);
        assert Parts(from)[i] in Parts(from);
        NoVisitedAsks(env, n, Parts(from)[i].steps, m, s);
      }
    }
  }

  // ----- a yes has a reason -----

  lemma {:induction false} AskerIn(env: Env, n: nat, steps: seq<Step>) returns (s: Step)
    requires NeedsFlags(env, n, steps) == Some(true)
    ensures Visited(env, n, steps, s) && Asks(s)
    decreases n, steps
  {
    hide StepNeedsFlags, Asks, VisitedFrom;
    if StepNeedsFlags(env, n, steps[0]) == Some(true) {
      s := AskerFrom(env, n, steps[0]);
    } else {
      s := AskerIn(env, n, steps[1..]);
      var i :| 0 <= i < |steps[1..]| && VisitedFrom(env, n, steps[1..][i], s);
      assert steps[i + 1] == steps[1..][i];
    }
  }

  lemma {:induction false} AskerFrom(env: Env, n: nat, from: Step) returns (s: Step)
    requires StepNeedsFlags(env, n, from) == Some(true)
    ensures VisitedFrom(env, n, from, s) && Asks(s)
    decreases n, from
  {
    hide NeedsFlags, Visited, ReferencedPipeline;
    match from
    case Regular(_, _, _, _, condition, _, _) =>
      if condition.Some? {
        FlagOccurs(condition.value);
        NeedsOccurs(condition.value);
      }
      hide CarriesFlag, DeclaresFlags;
      if Asks(from) { s := from; }
      else { s := AskerIn(env, n - 1, ReferencedPipeline(env, from).value.steps); }
    case Result(branches, _) =>
      var i := AskingBranch(env, n, branches);
      assert branches[i].pipeline == Parts(from)[i];
      s := AskerIn(env, n, branches[i].pipeline.steps);
    case If(test, thenBranch, elseBranch, _) =>
      var i := if NeedsFlags(env, n, test.steps) == Some(true) then 0
               else if NeedsFlags(env, n, thenBranch.steps) == Some(true) then 1 else 2;
      assert Parts(from)[i] == if i == 0 then test else if i == 1 then thenBranch else elseBranch.value;
      s := AskerIn(env, n, Parts(from)[i].steps);
    case Dispatch(cases, default, _) =>
      if CasesNeedFlags(env, n, cases) == Some(true) {
        var i := AskingCase(env, n, cases);
        if CarriesFlag(cases[i].condition) { s := from; }
        else {
          assert Parts(from)[i] == CaseParts(cases)[i] == cases[i].pipeline;
          s := AskerIn(env, n, cases[i].pipeline.steps);
        }
      } else {
        assert Parts(from)[|cases|] == default.value;
        s := AskerIn(env, n, default.value.steps);
      }
    case Foreach(_, body, _) =>
      assert Parts(from)[0] == body;
      s := AskerIn(env, n, body.steps);
  }

  lemma {:induction false} AskingBranch(env: Env, n: nat, branches: seq<ResultBranch>) returns (i: nat)
    requires ResultsNeedFlags(env, n, branches) == Some(true)
    ensures i < |branches| && NeedsFlags(env, n, branches[i].pipeline.steps) == Some(true)
  {
    hide NeedsFlags;
    i := 0;
    if NeedsFlags(env, n, branches[0].pipeline.steps) != Some(true) {
      i := AskingBranch(env, n, branches[1..]);
      i := i + 1;
    }
  }

  lemma {:induction false} AskingCase(env: Env, n: nat, cases: seq<DispatchBranch>) returns (i: nat)
    requires CasesNeedFlags(env, n, cases) == Some(true)
    ensures i < |cases|
    ensures CarriesFlag(cases[i].condition) || NeedsFlags(env, n, cases[i].pipeline.steps) == Some(true)
  {
    hide NeedsFlags, CarriesFlag;
    i := 0;
    FlagOccurs(cases[0].condition);
    if !HasFlag(cases[0].condition) && NeedsFlags(env, n, cases[0].pipeline.steps) != Some(true) {
      i := AskingCase(env, n, cases[1..]);
      i := i + 1;
    }
  }

  /** Where the analysis answers, the answer is yes if and only if something it visits asks for flags: a condition with
      `@flag` or `@needs(flags)`, or a `dispatch` case with `@flag`. */
  lemma FlagsNeededIff(env: Env, n: nat, steps: seq<Step>)
    requires NeedsFlags(env, n, steps).Some?
    ensures NeedsFlags(env, n, steps) == Some(AskedFor(env, steps))
  {
    hide NeedsFlags, Visited, Asks;
    if NeedsFlags(env, n, steps).value {
      var s := AskerIn(env, n, steps);
    } else {
      forall m: nat, s | Visited(env, m, steps, s) ensures !Asks(s) { NoVisitedAsks(env, n, steps, m, s); }
    }
  }

  /** If a rank falls along the references it follows, the analysis answers, and rightly, under every bound from
      some one on. */
  lemma AcyclicFlagsExact(env: Env, rank: Rank, n: nat, steps: seq<Step>) returns (bound: nat)
    requires Below(Literal(env), rank, steps, n)
    ensures forall fuel: nat :: fuel >= bound ==> NeedsFlags(env, fuel, steps) == Some(AskedFor(env, steps))
  {
    hide NeedsFlags, AskedFor, Below;
    bound := AnalysisBound(env, rank, n, steps);
    forall fuel: nat | fuel >= bound ensures NeedsFlags(env, fuel, steps) == Some(AskedFor(env, steps)) {
      FlagsNeededIff(env, fuel, steps);
    }
  }
}

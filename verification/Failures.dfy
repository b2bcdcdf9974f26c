/** Where a failing step's error goes. */
module Failures {
  import opened Base
  import opened JsonValues
  import opened Tags
  import opened Ast
  import opened Responses
  import opened Runtime
  import opened Steps
  import opened Interpreter
  import opened RunTheorems

  /** Retyping gives the first error the new type if it is an object, and changes nothing otherwise. */
  lemma RetypedError(v: Json, t: string)
    requires ErrorType(v).Some?
    ensures ErrorType(OverrideErrorType(v, Some(t))) == Some(t)
    ensures forall key :: key != "errors" ==> Get(OverrideErrorType(v, Some(t)), key) == Get(v, key)
  {
    var items := Get(v, "errors").value.items;
    assert items[0].Object?;
  }

  lemma EnvelopeTyped(name: string, message: string, location: Option<string>)
    ensures ErrorType(MiddlewareErrorValue(name, message, location)) == Some(name + "Error")
  {
  }

  /** The type a failure of the step carries: the one of its `@error` tag, else one made from its name. */
  function FailureType(s: Step): string
    requires s.Regular?
  {
    var tagged := ConditionArgument(s.condition, "error");
    if tagged.Some? then tagged.value else s.name + "Error"
  }

  /** A middleware failure turns into a typed error; any other error goes on as it is, located once. */
  lemma RecoverTypes(s: Step, f: Frame, e: WebPipeError, w: World)
    requires s.Regular?
    ensures var end := Recover(s, f, e, w);
            if MiddlewareFailure(WithLocation(e, s.loc)).Some? then
              end == Continue(f.(state := end.frame.state), w) && ErrorType(end.frame.state) == Some(FailureType(s))
            else end == Raised(WithLocation(e, s.loc), w)
  {
    var failure := MiddlewareFailure(WithLocation(e, s.loc));
    if failure.Some? {
      var value := MiddlewareErrorValue(s.name, failure.value.message, failure.value.location);
      EnvelopeTyped(s.name, failure.value.message, failure.value.location);
      var tagged := ConditionArgument(s.condition, "error");
      if tagged.Some? { RetypedError(value, tagged.value); }
    }
  }

  /** What a failed task says of its error: where it happened, of what kind it is, and its message. */
  lemma ErrorTexts(place: string, m: string)
    ensures Show(Located(place, MiddlewareFailed(m))) == "At " + place + ": " + ("Middleware execution failed: " + m)
    ensures Show(Located(place, PipelineNotFound(m))) == "At " + place + ": " + ("Pipeline not found: " + m)
    ensures Show(Located(place, ConfigError(m))) == "At " + place + ": " + ("Configuration error: " + m)
    ensures Show(Located(place, OtherError(m))) == "At " + place + ": " + m
  {
  }

  /** The branch a `result` step takes on an error of type `t`: the first one named so, else the first default. */
  predicate Catches(branches: seq<ResultBranch>, t: string, b: Option<ResultBranch>) {
    match b
    case None => forall i :: 0 <= i < |branches| ==>
        branches[i].kind != CustomBranch(t) && branches[i].kind != DefaultBranch
    case Some(b) =>
      (b in branches
       && (b.kind == CustomBranch(t)
           || (b.kind == DefaultBranch && forall i :: 0 <= i < |branches| ==> branches[i].kind != CustomBranch(t))))
  }

  lemma SelectCatches(branches: seq<ResultBranch>, t: string)
    ensures Catches(branches, t, SelectBranch(branches, Some(t)))
  {
    FirstOfKind(branches, CustomBranch(t));
    FirstOfKind(branches, DefaultBranch);
  }

  /** Out of reach of a handler for its own type, a failing step hands its error to the next `result` step of the
      list and to no step before it; there the branch of its type takes it, the default failing that, and with
      neither the envelope is the outcome. Without a `result` step the envelope is the outcome as well. */
  lemma FailureGoesToResult(env: Env, fuel: nat, s: Step, rest: seq<Step>, idx: nat, f: Frame, e: WebPipeError,
                            w: World)
    requires s.Regular? && Recover(s, f, e, w).Continue? && f.handled != Some(FailureType(s))
    ensures var failed := Recover(s, f, e, w).frame;
            var end := Loop(env, fuel, rest, idx, failed, w);
            match FirstResult(rest)
            case None => end.LoopDone? && end.out == Response(failed.state, f.contentType, f.status) && end.w == w
            case Some(result) =>
              var b := SelectBranch(result.results, Some(FailureType(s)));
              && Catches(result.results, FailureType(s), b)
              && end == Loop(env, fuel, [result], 0, failed, w)
              && (b.None? ==> end.LoopDone? && end.out == Response(failed.state, f.contentType, f.status) && end.w == w)
  {
    RecoverTypes(s, f, e, w);
    var failed := Recover(s, f, e, w).frame;
    LoopUnhandled(env, fuel, rest, idx, failed, w);
    if FirstResult(rest).Some? {
      var result := FirstResult(rest).value;
      SelectCatches(result.results, FailureType(s));
      if SelectBranch(result.results, Some(FailureType(s))).None? { Uncaught(env, fuel, result, failed, w); }
    }
  }

  lemma Uncaught(env: Env, fuel: nat, result: Step, f: Frame, w: World)
    requires result.Result? && SelectBranch(result.results, ErrorType(f.state)).None?
    ensures var end := Loop(env, fuel, [result], 0, f, w);
            end.LoopDone? && end.out == Response(f.state, f.contentType, f.status) && end.w == w
  {
    hide SelectBranch, ErrorType;
    var g := Recheck(f);
    assert PlanStep(env, result, 0, [], g, w) == Done(Return(Response(f.state, f.contentType, f.status), g, w));
    assert [result][1..] == [];
  }
}

/** Tag expressions: the boolean conditions attached to steps and dispatch branches. */
module Tags {
  import opened Base
  import opened JsonValues

  datatype Tag = Tag(name: string, negated: bool, args: seq<string>)

  datatype TagExpr =
    | Single(tag: Tag)
    | And(left: TagExpr, right: TagExpr)
    | Or(left: TagExpr, right: TagExpr)

  /** What a condition may consult. `guard` is the jq evaluator behind `@guard`. */
  datatype TagContext = TagContext(
    environment: Option<string>,
    flags: map<string, bool>,
    conditions: map<string, bool>,
    guard: (string, Json) -> Option<bool>)

  predicate Enabled(switches: map<string, bool>, name: string) {
    name in switches && switches[name]
  }

  /** Every argument must match; without arguments the tag never blocks. */
  predicate CheckSwitches(tag: Tag, switches: map<string, bool>) {
    forall i :: 0 <= i < |tag.args| ==> Enabled(switches, tag.args[i]) != tag.negated
  }

  predicate CheckEnv(tag: Tag, environment: Option<string>) {
    if |tag.args| != 1 then true
    else if environment.Some? then (environment.value == tag.args[0]) != tag.negated
    else !tag.negated
  }

  predicate CheckGuard(tag: Tag, ctx: TagContext, input: Json) {
    if tag.args == [] then true
    else match ctx.guard(tag.args[0], input)
      case Some(b) => b != tag.negated
      case None => false
  }

  predicate CheckTag(tag: Tag, ctx: TagContext, input: Json) {
    if tag.name == "env" then CheckEnv(tag, ctx.environment)
    else if tag.name == "flag" then CheckSwitches(tag, ctx.flags)
    else if tag.name == "when" then CheckSwitches(tag, ctx.conditions)
    else if tag.name == "guard" then CheckGuard(tag, ctx, input)
    else true
  }

  predicate CheckTagExpr(e: TagExpr, ctx: TagContext, input: Json) {
    match e
    case Single(tag) => CheckTag(tag, ctx, input)
    case And(l, r) => CheckTagExpr(l, ctx, input) && CheckTagExpr(r, ctx, input)
    case Or(l, r) => CheckTagExpr(l, ctx, input) || CheckTagExpr(r, ctx, input)
  }

  /** The argument of the leftmost `@name(argument)` in the expression. */
  function TagArgument(e: TagExpr, name: string): Option<string> {
    match e
    case Single(tag) =>
      if tag.name == name && !tag.negated && |tag.args| == 1 then Some(tag.args[0]) else None
    case And(l, r) => if TagArgument(l, name).Some? then TagArgument(l, name) else TagArgument(r, name)
    case Or(l, r) => if TagArgument(l, name).Some? then TagArgument(l, name) else TagArgument(r, name)
  }

  predicate HasFlag(e: TagExpr) {
    match e
    case Single(tag) => tag.name == "flag"
    case And(l, r) => HasFlag(l) || HasFlag(r)
    case Or(l, r) => HasFlag(l) || HasFlag(r)
  }

  predicate HasNeedsFlags(e: TagExpr) {
    match e
    case Single(tag) => tag.name == "needs" && "flags" in tag.args
    case And(l, r) => HasNeedsFlags(l) || HasNeedsFlags(r)
    case Or(l, r) => HasNeedsFlags(l) || HasNeedsFlags(r)
  }

  /** A condition without `@flag` cannot see the feature flags. */
  lemma {:induction false} FlagFreeCondition(e: TagExpr, ctx: TagContext, flags: map<string, bool>, input: Json)
    requires !HasFlag(e)
    ensures CheckTagExpr(e, ctx, input) == CheckTagExpr(e, ctx.(flags := flags), input)
  {
    match e
    case Single(tag) =>
    case And(l, r) =>
      FlagFreeCondition(l, ctx, flags, input);
      FlagFreeCondition(r, ctx, flags, input);
    case Or(l, r) =>
      FlagFreeCondition(l, ctx, flags, input);
      FlagFreeCondition(r, ctx, flags, input);
  }
}

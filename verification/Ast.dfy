/** Pipelines and their steps. */
module Ast {
  import opened Base
  import opened Tags

  datatype Location = Location(file: Option<string>, line: nat, column: nat, endLine: nat, moduleId: Option<nat>)

  datatype Pipeline = Pipeline(steps: seq<Step>)

  datatype Step =
    | Regular(name: string, args: seq<string>, config: string, configPresent: bool,
              condition: Option<TagExpr>, joinTargets: Option<seq<string>>, loc: Location)
    | Result(results: seq<ResultBranch>, loc: Location)
    | If(test: Pipeline, thenBranch: Pipeline, elseBranch: Option<Pipeline>, loc: Location)
    | Dispatch(cases: seq<DispatchBranch>, default: Option<Pipeline>, loc: Location)
    | Foreach(selector: string, body: Pipeline, loc: Location)

  datatype BranchType = OkBranch | CustomBranch(name: string) | DefaultBranch

  datatype ResultBranch = ResultBranch(kind: BranchType, status: nat, pipeline: Pipeline)

  datatype DispatchBranch = DispatchBranch(condition: TagExpr, pipeline: Pipeline)

  function LineLabel(loc: Location): string {
    if loc.endLine > loc.line then Decimal(loc.line) + "-" + Decimal(loc.endLine) else Decimal(loc.line)
  }

  /** The label put in front of located errors; steps without a position have none. */
  function ErrorLabel(loc: Location): Option<string> {
    if loc.line == 0 then None
    else if loc.file.Some? && loc.file.value != [] then Some(loc.file.value + ":" + LineLabel(loc))
    else Some("line " + LineLabel(loc))
  }

  function FirstOf(branches: seq<ResultBranch>, kind: BranchType): Option<ResultBranch> {
    if branches == [] then None
    else if branches[0].kind == kind then Some(branches[0])
    else FirstOf(branches[1..], kind)
  }

  lemma {:induction false} FirstOfKind(branches: seq<ResultBranch>, kind: BranchType)
    ensures match FirstOf(branches, kind)
            case None => forall i :: 0 <= i < |branches| ==> branches[i].kind != kind
            case Some(b) => b in branches && b.kind == kind
  {
    if branches != [] { FirstOfKind(branches[1..], kind); }
  }

  /** A typed error goes to the branch of its name, a clean state to `ok`, either falls back to `default`. */
  function SelectBranch(branches: seq<ResultBranch>, errorType: Option<string>): Option<ResultBranch> {
    var exact := FirstOf(branches, if errorType.Some? then CustomBranch(errorType.value) else OkBranch);
    if exact.Some? then exact else FirstOf(branches, DefaultBranch)
  }
}

/** Parsed source files. */
module Programs {
  import opened Base
  import opened Ast

  type Path = string

  datatype Import = Import(path: string, alias: string)
  datatype NamedPipeline = NamedPipeline(name: string, pipeline: Pipeline)
  datatype NamedVariable = NamedVariable(kind: string, name: string, value: string)

  /** A route runs a pipeline of its own or refers to a named one. */
  datatype PipelineRef = Inline(pipeline: Pipeline) | Named(name: string)
  datatype Route = Route(head: string, target: PipelineRef)

  datatype Program = Program(
    imports: seq<Import>,
    variables: seq<NamedVariable>,
    pipelines: seq<NamedPipeline>,
    routes: seq<Route>,
    queries: seq<NamedPipeline>,
    mutations: seq<NamedPipeline>,
    resolvers: seq<NamedPipeline>,
    schema: Option<string>)

  /** A loaded module: its program, and the file behind each of its aliases. */
  datatype ModuleInfo = ModuleInfo(program: Program, imports: map<string, Path>)
}

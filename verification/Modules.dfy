/** Module identities: files are numbered by sorted path, once when programs are merged and once when the runtime is
    built, and `alias::name` finds its target through those numbers. */
module Modules {
  import opened Base
  import opened JsonValues
  import opened Tags
  import opened Ast
  import opened Responses
  import opened Runtime
  import opened Programs
  import opened Stamping

  // ----- sorted paths -----

  ghost predicate StrictOrder(less: (Path, Path) -> bool) {
    && (forall a :: !less(a, a))
    && (forall a, b, c :: less(a, b) && less(b, c) ==> less(a, c))
    && (forall a, b :: a != b ==> less(a, b) || less(b, a))
  }

  ghost predicate Ascending(s: seq<Path>, less: (Path, Path) -> bool) {
    forall i, j :: 0 <= i < j < |s| ==> less(s[i], s[j])
  }

  function InsertPath(s: seq<Path>, p: Path, less: (Path, Path) -> bool): seq<Path> {
    if s == [] || less(p, s[0]) then [p] + s else [s[0]] + InsertPath(s[1..], p, less)
  }

  function SortPaths(s: seq<Path>, less: (Path, Path) -> bool): seq<Path> {
    if s == [] then [] else InsertPath(SortPaths(s[1..], less), s[0], less)
  }

  lemma {:induction false} InsertProps(s: seq<Path>, p: Path, less: (Path, Path) -> bool)
    requires StrictOrder(less) && Ascending(s, less) && p !in s
    ensures Ascending(InsertPath(s, p, less), less)
    ensures Elements(InsertPath(s, p, less)) == Elements(s) + {p}
    decreases |s|
  {
    if s == [] {
    } else if less(p, s[0]) {
      forall i | 0 <= i < |s| ensures less(p, s[i]) { if i > 0 { assert less(s[0], s[i]); } }
    } else {
      var rest := InsertPath(s[1..], p, less);
      InsertProps(s[1..], p, less);
      forall q | q in rest ensures less(s[0], q) {
        assert q in Elements(rest);
        if q != p {
          assert q in s[1..];
          var i :| 0 <= i < |s[1..]| && s[1..][i] == q;
          assert s[i + 1] == q;
        }
      }
      assert s == [s[0]] + s[1..];
    }
  }

  lemma {:induction false} SortProps(s: seq<Path>, less: (Path, Path) -> bool)
    requires StrictOrder(less) && forall i, j :: 0 <= i < j < |s| ==> s[i] != s[j]
    ensures Ascending(SortPaths(s, less), less) && Elements(SortPaths(s, less)) == Elements(s)
    decreases |s|
  {
    if s != [] {
      SortProps(s[1..], less);
      assert s[0] !in s[1..];
      assert s[0] !in Elements(SortPaths(s[1..], less));
      InsertProps(SortPaths(s[1..], less), s[0], less);
      assert s == [s[0]] + s[1..];
    }
  }

  /** However the files were enumerated, sorting numbers them the same way. */
  lemma {:induction false} AscendingUnique(a: seq<Path>, b: seq<Path>, less: (Path, Path) -> bool)
    requires StrictOrder(less) && Ascending(a, less) && Ascending(b, less) && Elements(a) == Elements(b)
    ensures a == b
    decreases |a|
  {
    if b != [] { assert b[0] in Elements(a); }
    if a != [] {
      assert a[0] in Elements(b);
      assert b != [];
      assert b[0] in Elements(a);
      HeadIsLeast(a, b[0], less);
      HeadIsLeast(b, a[0], less);
      TailElements(a, less);
      TailElements(b, less);
      AscendingUnique(a[1..], b[1..], less);
    }
  }

  lemma HeadIsLeast(s: seq<Path>, p: Path, less: (Path, Path) -> bool)
    requires Ascending(s, less) && p in s
    ensures p == s[0] || less(s[0], p)
  {
    var i :| 0 <= i < |s| && s[i] == p;
  }

  lemma TailElements(s: seq<Path>, less: (Path, Path) -> bool)
    requires StrictOrder(less) && Ascending(s, less) && s != []
    ensures Elements(s[1..]) == Elements(s) - {s[0]}
  {
    forall p | p in s[1..] ensures p != s[0] {
      var i :| 0 <= i < |s[1..]| && s[1..][i] == p;
      assert less(s[0], s[i + 1]);
    }
    assert s == [s[0]] + s[1..];
  }

  // ----- the registry -----

  class ModuleRegistry {
    var modules: map<nat, ModuleMetadata>
    var pathToId: map<Path, nat>

    constructor ()
      ensures modules == map[] && pathToId == map[]
    {
      modules, pathToId := map[], map[];
    }

    /** The next identity is the number of modules registered so far. */
    method Register(path: Path, importMap: map<string, nat>) returns (id: nat)
      modifies this
      ensures id == |old(modules)|
      ensures modules == old(modules)[id := ModuleMetadata(path, importMap)]
      ensures pathToId == old(pathToId)[path := id]
    {
      id := |modules|;
      modules := modules[id := ModuleMetadata(path, importMap)];
      pathToId := pathToId[path := id];
    }
  }

  // ----- building the runtime -----

  /** Positions in the sorted list. */
  ghost predicate Numbers(ids: map<Path, nat>, sorted: seq<Path>) {
    && ids.Keys == Elements(sorted)
    && forall i :: 0 <= i < |sorted| ==> sorted[i] in ids && ids[sorted[i]] == i
  }

  ghost predicate Distinct(s: seq<Path>) { forall i, j :: 0 <= i < j < |s| ==> s[i] != s[j] }

  method NumberPaths(sorted: seq<Path>) returns (ids: map<Path, nat>)
    requires Distinct(sorted)
    ensures Numbers(ids, sorted)
  {
    ids := map[];
    for i := 0 to |sorted|
      invariant ids.Keys == Elements(sorted[..i])
      invariant forall j :: 0 <= j < i ==> sorted[j] in ids && ids[sorted[j]] == j
    {
      assert sorted[..i + 1] == sorted[..i] + [sorted[i]];
      ids := ids[sorted[i] := i];
    }
    assert sorted[..|sorted|] == sorted;
  }

  function ImportIds(imports: map<string, Path>, ids: map<Path, nat>): map<string, nat> {
    map a | a in imports && imports[a] in ids :: ids[imports[a]]
  }

  /** Module `i` is the `i`-th file, and its aliases lead to the numbers of their files. */
  ghost predicate Registered(modules: map<nat, ModuleMetadata>, tree: map<Path, ModuleInfo>, sorted: seq<Path>,
                             ids: map<Path, nat>, n: nat)
    requires n <= |sorted|
  {
    && (forall i :: i in modules ==> i < n)
    && (forall i :: 0 <= i < n ==>
          i in modules && sorted[i] in tree
              && modules[i] == ModuleMetadata(sorted[i], ImportIds(tree[sorted[i]].imports, ids)))
  }

  lemma AddKey<V>(m: map<nat, V>, k: nat, v: V)
    requires k !in m
    ensures |m[k := v]| == |m| + 1
  {
    assert m[k := v].Keys == m.Keys + {k};
    assert |m[k := v].Keys| == |m.Keys| + 1;
  }

  lemma RegisterNext(modules: map<nat, ModuleMetadata>, tree: map<Path, ModuleInfo>, sorted: seq<Path>,
                     ids: map<Path, nat>,
                     n: nat, entry: ModuleMetadata)
    requires n < |sorted| && sorted[n] in tree && Registered(modules, tree, sorted, ids, n)
    requires entry == ModuleMetadata(sorted[n], ImportIds(tree[sorted[n]].imports, ids))
    ensures n !in modules && Registered(modules[n := entry], tree, sorted, ids, n + 1)
  {
    hide ImportIds;
    var next := modules[n := entry];
    forall i | 0 <= i < n + 1
      ensures i in next && sorted[i] in tree
      ensures next[i] == ModuleMetadata(sorted[i], ImportIds(tree[sorted[i]].imports, ids))
    {
      if i < n { assert next[i] == modules[i]; }
    }
  }

  /** The numbers handed out for the first `n` files. */
  ghost predicate NumbersUpTo(pathToId: map<Path, nat>, ids: map<Path, nat>, sorted: seq<Path>, n: nat)
    requires n <= |sorted|
  {
    && (forall p :: p in pathToId ==> p in ids && pathToId[p] == ids[p])
    && (forall j :: 0 <= j < n ==> sorted[j] in pathToId)
  }

  lemma RegistryStarts(modules: map<nat, ModuleMetadata>, pathToId: map<Path, nat>, tree: map<Path, ModuleInfo>,
                       sorted: seq<Path>, ids: map<Path, nat>)
    requires Elements(sorted) == tree.Keys && Numbers(ids, sorted) && modules == map[] && pathToId == map[]
    ensures forall i :: 0 <= i < |sorted| ==> sorted[i] in tree && sorted[i] in ids && ids[sorted[i]] == i
    ensures Registered(modules, tree, sorted, ids, 0) && NumbersUpTo(pathToId, ids, sorted, 0)
  {
    assert forall i :: 0 <= i < |sorted| ==> sorted[i] in Elements(sorted);
    hide Elements, ImportIds;
  }

  lemma NumberNext(pathToId: map<Path, nat>, ids: map<Path, nat>, sorted: seq<Path>, n: nat)
    requires n < |sorted| && sorted[n] in ids && ids[sorted[n]] == n && NumbersUpTo(pathToId, ids, sorted, n)
    ensures NumbersUpTo(pathToId[sorted[n] := n], ids, sorted, n + 1)
  {
  }

  lemma AllNumbered(pathToId: map<Path, nat>, ids: map<Path, nat>, sorted: seq<Path>)
    requires Numbers(ids, sorted) && NumbersUpTo(pathToId, ids, sorted, |sorted|)
    ensures pathToId == ids
  {
    forall p | p in ids ensures p in pathToId {
      assert p in Elements(sorted);
    }
  }

  /** Registering in sorted order hands every file the number it was given beforehand. */
  method RegisterModules(tree: map<Path, ModuleInfo>, sorted: seq<Path>, ids: map<Path, nat>, registry: ModuleRegistry)
    requires Distinct(sorted) && Elements(sorted) == tree.Keys && Numbers(ids, sorted)
    requires registry.modules == map[] && registry.pathToId == map[]
    modifies registry
    ensures registry.pathToId == ids
    ensures Registered(registry.modules, tree, sorted, ids, |sorted|)
  {
    RegistryStarts(registry.modules, registry.pathToId, tree, sorted, ids);
    hide *;
    for i := 0 to |sorted|
      invariant |registry.modules| == i && Registered(registry.modules, tree, sorted, ids, i)
      invariant NumbersUpTo(registry.pathToId, ids, sorted, i)
    {
      var importMap := ImportIds(tree[sorted[i]].imports, ids);
      RegisterNext(registry.modules, tree, sorted, ids, i, ModuleMetadata(sorted[i], importMap));
      NumberNext(registry.pathToId, ids, sorted, i);
      AddKey(registry.modules, i, ModuleMetadata(sorted[i], importMap));
      var _ := registry.Register(sorted[i], importMap);
    }
    AllNumbered(registry.pathToId, ids, sorted);
  }

  // ----- symbol tables -----

  type Pipelines = map<PipelineKey, Pipeline>

  type Variables = map<VariableKey, Variable>

  /** The last definition of a name wins. */
  function LastNamed(pipelines: seq<NamedPipeline>, name: string): Option<Pipeline> {
    if pipelines == [] then None
    else
      var last := pipelines[|pipelines| - 1];
      if last.name == name then Some(last.pipeline) else LastNamed(pipelines[..|pipelines| - 1], name)
  }

  function Prefixed(pipelines: seq<NamedPipeline>, prefix: string): seq<NamedPipeline> {
    seq(|pipelines|, k requires 0 <= k < |pipelines| => pipelines[k].(name := prefix + pipelines[k].name))
  }

  /** Resolvers share one table under prefixed names; mutations are entered after queries. */
  function LastResolver(p: Program, name: string): Option<Pipeline> {
    OrElse(LastNamed(Prefixed(p.mutations, "mutation::"), name), LastNamed(Prefixed(p.queries, "query::"), name))
  }

  function Stamped(p: Option<Pipeline>, file: string, id: nat): Option<Pipeline> {
    if p.Some? then Some(Stamp(p.value, file, id)) else None
  }

  function StampedNamed(pipelines: seq<NamedPipeline>, name: string, file: string, id: nat): Option<Pipeline> {
    Stamped(LastNamed(pipelines, name), file, id)
  }

  /** The resolver of the last of the first `n` files that defines one. */
  function ResolverUpTo(tree: map<Path, ModuleInfo>, sorted: seq<Path>, n: nat, name: string): Option<Pipeline>
    requires n <= |sorted| && forall i :: 0 <= i < |sorted| ==> sorted[i] in tree
  {
    if n == 0 then None
    else
      OrElse(Stamped(LastResolver(tree[sorted[n - 1]].program, name), sorted[n - 1], n - 1),
             ResolverUpTo(tree, sorted, n - 1, name))
  }

  function LastVariable(variables: seq<NamedVariable>, kind: string, name: string): Option<Variable> {
    if variables == [] then None
    else
      var last := variables[|variables| - 1];
      if last.kind == kind && last.name == name then Some(Variable(name, last.value))
      else LastVariable(variables[..|variables| - 1], kind, name)
  }

  /** The main file's own symbols, which no module number owns. */
  function LocalNamed(main: Program, name: string): Option<Pipeline> {
    OrElse(LastResolver(main, name), LastNamed(main.pipelines, name))
  }

  /** Where a name is defined last. */
  predicate LastAt(pipelines: seq<NamedPipeline>, name: string, i: nat) {
    i < |pipelines| && pipelines[i].name == name
    && forall j :: i < j < |pipelines| ==> pipelines[j].name != name
  }

  lemma {:induction false} LastNamedMeans(pipelines: seq<NamedPipeline>, name: string, i: nat)
    ensures LastAt(pipelines, name, i) ==> LastNamed(pipelines, name) == Some(pipelines[i].pipeline)
    ensures (forall j :: 0 <= j < |pipelines| ==> pipelines[j].name != name) ==> LastNamed(pipelines, name) == None
  {
    if pipelines != [] { LastNamedMeans(pipelines[..|pipelines| - 1], name, i); }
  }

  lemma {:induction false} LastVariableMeans(variables: seq<NamedVariable>, kind: string, name: string, i: nat)
    requires i < |variables| && variables[i].kind == kind && variables[i].name == name
    requires forall j :: i < j < |variables| ==> variables[j].kind != kind || variables[j].name != name
    ensures LastVariable(variables, kind, name) == Some(Variable(name, variables[i].value))
  {
    if i < |variables| - 1 { LastVariableMeans(variables[..|variables| - 1], kind, name, i); }
  }

  lemma {:induction false} PrefixedLast(pipelines: seq<NamedPipeline>, prefix: string, name: string)
    ensures LastNamed(Prefixed(pipelines, prefix), prefix + name) == LastNamed(pipelines, name)
  {
    if pipelines != [] {
      var last := pipelines[|pipelines| - 1];
      assert Prefixed(pipelines, prefix)[..|pipelines| - 1] == Prefixed(pipelines[..|pipelines| - 1], prefix);
      assert (prefix + last.name)[|prefix|..] == last.name && (prefix + name)[|prefix|..] == name;
      PrefixedLast(pipelines[..|pipelines| - 1], prefix, name);
    }
  }

  lemma {:induction false} OtherPrefix(pipelines: seq<NamedPipeline>, prefix: string, key: string)
    requires prefix != [] && (key == [] || key[0] != prefix[0])
    ensures LastNamed(Prefixed(pipelines, prefix), key) == None
  {
    if pipelines != [] {
      assert Prefixed(pipelines, prefix)[..|pipelines| - 1] == Prefixed(pipelines[..|pipelines| - 1], prefix);
      OtherPrefix(pipelines[..|pipelines| - 1], prefix, key);
    }
  }

  /** A file's query and mutation resolvers are found under their own prefixes, the last of a name, and do not hide one
      another. */
  lemma ResolversApart(p: Program, name: string)
    ensures LastResolver(p, "query::" + name) == LastNamed(p.queries, name)
    ensures LastResolver(p, "mutation::" + name) == LastNamed(p.mutations, name)
  {
    PrefixedLast(p.queries, "query::", name);
    PrefixedLast(p.mutations, "mutation::", name);
    OtherPrefix(p.mutations, "mutation::", "query::" + name);
    OtherPrefix(p.queries, "query::", "mutation::" + name);
    hide Prefixed, LastNamed;
  }

  /** In the main file as well, and a name that is no resolver's is the last pipeline of that name. */
  lemma LocalApart(main: Program, name: string)
    ensures LastNamed(main.queries, name).Some? ==>
              LocalNamed(main, "query::" + name) == LastNamed(main.queries, name)
    ensures LastNamed(main.mutations, name).Some? ==>
              LocalNamed(main, "mutation::" + name) == LastNamed(main.mutations, name)
    ensures name == [] || (name[0] != 'q' && name[0] != 'm') ==>
        LocalNamed(main, name) == LastNamed(main.pipelines, name)
  {
    ResolversApart(main, name);
    if name == [] || (name[0] != 'q' && name[0] != 'm') {
      OtherPrefix(main.mutations, "mutation::", name);
      OtherPrefix(main.queries, "query::", name);
    }
    hide Prefixed, LastNamed;
  }

  /** Of the resolvers of one key the last file's counts, stamped with it. */
  lemma {:induction false} ResolverOfLast(tree: map<Path, ModuleInfo>, sorted: seq<Path>, n: nat, name: string, i: nat)
    requires n <= |sorted| && forall i :: 0 <= i < |sorted| ==> sorted[i] in tree
    requires i < n && LastResolver(tree[sorted[i]].program, name).Some?
    requires forall j :: i < j < n ==> LastResolver(tree[sorted[j]].program, name) == None
    ensures ResolverUpTo(tree, sorted, n, name)
         == Some(Stamp(LastResolver(tree[sorted[i]].program, name).value, sorted[i], i))
    decreases n
  {
    hide Stamp, LastResolver;
    if i < n - 1 { ResolverOfLast(tree, sorted, n - 1, name, i); }
  }

  method EnterLocal(pipelines: seq<NamedPipeline>, prefix: string, start: Pipelines) returns (named: Pipelines)
    ensures forall key: PipelineKey :: ValueAt(named, key)
              == if key.moduleId == None then OrElse(LastNamed(Prefixed(pipelines, prefix), key.name),
                                                     ValueAt(start, key))
                 else ValueAt(start, key)
  {
    named := start;
    var entries := Prefixed(pipelines, prefix);
    for i := 0 to |pipelines|
      invariant forall key: PipelineKey :: ValueAt(named, key)
                  == if key.moduleId == None then OrElse(LastNamed(entries[..i], key.name), ValueAt(start, key))
                     else ValueAt(start, key)
    {
      assert entries[..i + 1][..i] == entries[..i];
      named := named[PipelineKey(None, prefix + pipelines[i].name) := pipelines[i].pipeline];
    }
    assert entries[..|pipelines|] == entries;
  }

  /** Register the main file's pipelines, variables and resolvers. */
  method RegisterLocal(main: Program) returns (named: Pipelines, variables: Variables)
    ensures forall key: PipelineKey ::
              ValueAt(named, key) == if key.moduleId == None then LocalNamed(main, key.name) else None
    ensures forall key: VariableKey ::
              ValueAt(variables, key)
                == if key.moduleId == None then LastVariable(main.variables, key.kind, key.name) else None
  {
    NoPrefix(main.pipelines);
    named := EnterLocal(main.pipelines, "", map[]);
    named := EnterLocal(main.queries, "query::", named);
    named := EnterLocal(main.mutations, "mutation::", named);
    variables := map[];
    for i := 0 to |main.variables|
      invariant forall key: VariableKey :: ValueAt(variables, key)
                  == if key.moduleId == None then LastVariable(main.variables[..i], key.kind, key.name) else None
    {
      assert main.variables[..i + 1][..i] == main.variables[..i];
      var v := main.variables[i];
      variables := variables[VariableKey(None, v.kind, v.name) := Variable(v.name, v.value)];
    }
    assert main.variables[..|main.variables|] == main.variables;
  }

  /** Enter pipelines under an owner and prefixed names, stamped as the owner's if there is a file. */
  method RegisterPipelines(pipelines: seq<NamedPipeline>, prefix: string, owner: Option<nat>, file: string, id: nat,
                           start: Pipelines)
    returns (named: Pipelines)
    ensures forall key: PipelineKey :: ValueAt(named, key)
              == if key.moduleId == owner
                 then OrElse(StampedNamed(Prefixed(pipelines, prefix), key.name, file, id), ValueAt(start, key))
                 else ValueAt(start, key)
  {
    hide Stamp;
    named := start;
    var entries := Prefixed(pipelines, prefix);
    for i := 0 to |pipelines|
      invariant forall key: PipelineKey :: ValueAt(named, key)
                  == if key.moduleId == owner
                     then OrElse(StampedNamed(entries[..i], key.name, file, id), ValueAt(start, key))
                     else ValueAt(start, key)
    {
      assert entries[..i + 1][..i] == entries[..i];
      var p := pipelines[i];
      named := named[PipelineKey(owner, prefix + p.name) := Stamp(p.pipeline, file, id)];
    }
    assert entries[..|pipelines|] == entries;
  }

  method RegisterVariables(entries: seq<NamedVariable>, id: nat, start: Variables) returns (variables: Variables)
    ensures forall key: VariableKey :: ValueAt(variables, key)
              == if key.moduleId == Some(id)
                 then OrElse(LastVariable(entries, key.kind, key.name), ValueAt(start, key))
                 else ValueAt(start, key)
  {
    variables := start;
    for i := 0 to |entries|
      invariant forall key: VariableKey :: ValueAt(variables, key)
                  == if key.moduleId == Some(id)
                     then OrElse(LastVariable(entries[..i], key.kind, key.name), ValueAt(start, key))
                     else ValueAt(start, key)
    {
      assert entries[..i + 1][..i] == entries[..i];
      var v := entries[i];
      variables := variables[VariableKey(Some(id), v.kind, v.name) := Variable(v.name, v.value)];
    }
    assert entries[..|entries|] == entries;
  }

  /** The first `n` files' pipelines under their numbers. */
  ghost predicate OwnEntered(named: Pipelines, tree: map<Path, ModuleInfo>, sorted: seq<Path>, n: nat)
    requires n <= |sorted| && forall i :: 0 <= i < |sorted| ==> sorted[i] in tree
  {
    forall i: nat, name :: ValueAt(named, PipelineKey(Some(i), name))
      == if i < n then StampedNamed(tree[sorted[i]].program.pipelines, name, sorted[i], i) else None
  }

  /** Resolvers under no number, over the main file's symbols. */
  ghost predicate ResolversEntered(named: Pipelines, tree: map<Path, ModuleInfo>, sorted: seq<Path>, n: nat,
                                   start: Pipelines)
    requires n <= |sorted| && forall i :: 0 <= i < |sorted| ==> sorted[i] in tree
  {
    forall name :: ValueAt(named, PipelineKey(None, name))
      == OrElse(ResolverUpTo(tree, sorted, n, name), ValueAt(start, PipelineKey(None, name)))
  }

  /** The first `n` files' variables under their numbers, over the main file's. */
  ghost predicate VariablesEntered(variables: Variables, tree: map<Path, ModuleInfo>, sorted: seq<Path>, n: nat,
                                   start: Variables)
    requires n <= |sorted| && forall i :: 0 <= i < |sorted| ==> sorted[i] in tree
  {
    && (forall i: nat, kind, name :: ValueAt(variables, VariableKey(Some(i), kind, name))
          == if i < n then LastVariable(tree[sorted[i]].program.variables, kind, name) else None)
    && (forall kind, name ::
          ValueAt(variables, VariableKey(None, kind, name)) == ValueAt(start, VariableKey(None, kind, name)))
  }

  ghost predicate LocalOnly(named: Pipelines, variables: Variables) {
    && (forall i: nat, name :: ValueAt(named, PipelineKey(Some(i), name)) == None)
    && (forall i: nat, kind, name :: ValueAt(variables, VariableKey(Some(i), kind, name)) == None)
  }

  /** Every module's symbols, stamped with its file and its number; a resolver replaces any earlier one of its name. */
  method RegisterSymbols(tree: map<Path, ModuleInfo>, sorted: seq<Path>, ids: map<Path, nat>,
                         localNamed: Pipelines, localVariables: Variables)
    returns (named: Pipelines, variables: Variables)
    requires Distinct(sorted) && Elements(sorted) == tree.Keys && Numbers(ids, sorted)
    requires LocalOnly(localNamed, localVariables)
    ensures forall i :: 0 <= i < |sorted| ==> sorted[i] in tree
    ensures OwnEntered(named, tree, sorted, |sorted|) && ResolversEntered(named, tree, sorted, |sorted|, localNamed)
    ensures VariablesEntered(variables, tree, sorted, |sorted|, localVariables)
  {
    assert forall i :: 0 <= i < |sorted| ==> sorted[i] in Elements(sorted) && sorted[i] in ids && ids[sorted[i]] == i;
    named, variables := localNamed, localVariables;
    assert OwnEntered(named, tree, sorted, 0) && ResolversEntered(named, tree, sorted, 0, localNamed);
    assert VariablesEntered(variables, tree, sorted, 0, localVariables);
    hide *;
    for i := 0 to |sorted|
      invariant OwnEntered(named, tree, sorted, i) && ResolversEntered(named, tree, sorted, i, localNamed)
      invariant VariablesEntered(variables, tree, sorted, i, localVariables)
    {
      ghost var named0, variables0 := named, variables;
      named, variables := RegisterFile(tree[sorted[i]].program, sorted[i], ids[sorted[i]], named, variables);
      OwnNext(named0, named, tree, sorted, i);
      ResolversNext(named0, named, tree, sorted, i, localNamed);
      VariablesNext(variables0, variables, tree, sorted, i, localVariables);
    }
  }

  method RegisterFile(p: Program, file: string, id: nat, named: Pipelines, variables: Variables)
    returns (named1: Pipelines, variables1: Variables)
    ensures AddsFile(named, named1, p, file, id) && AddsVariables(variables, variables1, p, id)
  {
    hide StampedNamed, Prefixed, LastVariable, ValueAt, LastResolver;
    var own := RegisterPipelines(p.pipelines, "", Some(id), file, id, named);
    variables1 := RegisterVariables(p.variables, id, variables);
    var queried := RegisterPipelines(p.queries, "query::", None, file, id, own);
    named1 := RegisterPipelines(p.mutations, "mutation::", None, file, id, queried);
    assert Adds(named, own, Some(id), Prefixed(p.pipelines, ""), file, id);
    assert Adds(own, queried, None, Prefixed(p.queries, "query::"), file, id);
    assert Adds(queried, named1, None, Prefixed(p.mutations, "mutation::"), file, id);
    hide Adds, AddsFile;
    PipelinesEntered(named, own, queried, named1, p, file, id);
  }

  ghost predicate Adds(before: Pipelines, after: Pipelines, owner: Option<nat>, entries: seq<NamedPipeline>,
                       file: string, id: nat)
  {
    forall key: PipelineKey :: ValueAt(after, key)
      == if key.moduleId == owner then OrElse(StampedNamed(entries, key.name, file, id), ValueAt(before, key))
         else ValueAt(before, key)
  }

  /** What entering one file amounts to: its pipelines under its number, its resolvers under none. */
  ghost predicate AddsFile(before: Pipelines, after: Pipelines, p: Program, file: string, id: nat) {
    forall key: PipelineKey :: ValueAt(after, key)
      == if key.moduleId == Some(id) then OrElse(StampedNamed(p.pipelines, key.name, file, id), ValueAt(before, key))
         else if key.moduleId == None then OrElse(Stamped(LastResolver(p, key.name), file, id), ValueAt(before, key))
         else ValueAt(before, key)
  }

  ghost predicate AddsVariables(before: Variables, after: Variables, p: Program, id: nat) {
    forall key: VariableKey :: ValueAt(after, key)
      == if key.moduleId == Some(id) then OrElse(LastVariable(p.variables, key.kind, key.name), ValueAt(before, key))
         else ValueAt(before, key)
  }

  lemma PipelinesEntered(before: Pipelines, own: Pipelines, queried: Pipelines, after: Pipelines, p: Program,
                         file: string, id: nat)
    requires Adds(before, own, Some(id), Prefixed(p.pipelines, ""), file, id)
    requires Adds(own, queried, None, Prefixed(p.queries, "query::"), file, id)
    requires Adds(queried, after, None, Prefixed(p.mutations, "mutation::"), file, id)
    ensures AddsFile(before, after, p, file, id)
  {
    hide Stamp, ValueAt;
    NoPrefix(p.pipelines);
    hide Prefixed, LastNamed;
  }

  lemma NoPrefix(pipelines: seq<NamedPipeline>)
    ensures Prefixed(pipelines, "") == pipelines
  {
    forall k | 0 <= k < |pipelines| ensures Prefixed(pipelines, "")[k] == pipelines[k] {
      assert "" + pipelines[k].name == pipelines[k].name;
    }
  }

  lemma OwnNext(named: Pipelines, named1: Pipelines, tree: map<Path, ModuleInfo>, sorted: seq<Path>, n: nat)
    requires n < |sorted| && forall i :: 0 <= i < |sorted| ==> sorted[i] in tree
    requires OwnEntered(named, tree, sorted, n) && AddsFile(named, named1, tree[sorted[n]].program, sorted[n], n)
    ensures OwnEntered(named1, tree, sorted, n + 1)
  {
    hide ValueAt, Stamp, LastNamed;
    forall i: nat, name
      ensures ValueAt(named1, PipelineKey(Some(i), name))
           == if i < n + 1 then StampedNamed(tree[sorted[i]].program.pipelines, name, sorted[i], i) else None
    {
      assert ValueAt(named, PipelineKey(Some(i), name))
          == if i < n then StampedNamed(tree[sorted[i]].program.pipelines, name, sorted[i], i) else None;
    }
  }

  lemma ResolversNext(named: Pipelines, named1: Pipelines, tree: map<Path, ModuleInfo>, sorted: seq<Path>, n: nat,
                      start: Pipelines)
    requires n < |sorted| && forall i :: 0 <= i < |sorted| ==> sorted[i] in tree
    requires ResolversEntered(named, tree, sorted, n, start)
    requires AddsFile(named, named1, tree[sorted[n]].program, sorted[n], n)
    ensures ResolversEntered(named1, tree, sorted, n + 1, start)
  {
    hide ValueAt, Stamp, LastResolver;
  }

  lemma VariablesNext(variables: Variables, variables1: Variables, tree: map<Path, ModuleInfo>, sorted: seq<Path>,
                      n: nat,
                      start: Variables)
    requires n < |sorted| && forall i :: 0 <= i < |sorted| ==> sorted[i] in tree
    requires VariablesEntered(variables, tree, sorted, n, start)
    requires AddsVariables(variables, variables1, tree[sorted[n]].program, n)
    ensures VariablesEntered(variables1, tree, sorted, n + 1, start)
  {
    hide ValueAt;
    forall i: nat, kind, name
      ensures ValueAt(variables1, VariableKey(Some(i), kind, name))
           == if i < n + 1 then LastVariable(tree[sorted[i]].program.variables, kind, name) else None
    {
      assert ValueAt(variables, VariableKey(Some(i), kind, name))
          == if i < n then LastVariable(tree[sorted[i]].program.variables, kind, name) else None;
    }
  }

  // ----- scoped references -----

  lemma {:induction false} NoScope(s: string)
    requires forall i :: 0 <= i < |s| ==> s[i] != ':'
    ensures FindScope(s).None?
  {
    if |s| >= 2 { NoScope(s[1..]); }
  }

  lemma {:induction false} ScopeAfter(a: string, b: string)
    requires forall i :: 0 <= i < |a| ==> a[i] != ':'
    ensures FindScope(a + "::" + b) == Some(|a|)
    decreases |a|
  {
    var s := a + "::" + b;
    if a == [] {
      assert s == "::" + b;
    } else {
      assert s[1..] == a[1..] + "::" + b;
      ScopeAfter(a[1..], b);
    }
  }

  lemma TrimmedText(s: string)
    requires s != [] && Trimmed(s)
    ensures Trim(s) == s
  {
  }

  /** "alias::name" is read back as its two halves. */
  lemma ScopedRefReads(alias: string, name: string)
    requires IsIdentifierPart(alias) && IsIdentifierPart(name)
    ensures Trim(alias + "::" + name) == alias + "::" + name
    ensures ParseScopedRef(alias + "::" + name) == ScopedRef(Some(alias), name)
  {
    var s := alias + "::" + name;
    IdentifierChars(alias);
    IdentifierChars(name);
    assert s[0] == alias[0] && s[|s| - 1] == name[|name| - 1];
    TrimmedText(s);
    ScopeAfter(alias, name);
    NoScope(name);
    assert s[..|alias|] == alias && s[|alias| + 2..] == name;
  }

  lemma IdentifierChars(s: string)
    requires IsIdentifierPart(s)
    ensures forall i :: 0 <= i < |s| ==> s[i] != ':' && !IsWhitespace(s[i])
  {
  }

  /** What building the runtime leaves in the environment. */
  ghost predicate Built(env: Env, tree: map<Path, ModuleInfo>, sorted: seq<Path>, ids: map<Path, nat>) {
    && Elements(sorted) == tree.Keys && Numbers(ids, sorted)
    && Registered(env.modules, tree, sorted, ids, |sorted|)
    && forall i, name :: 0 <= i < |sorted| ==>
         && sorted[i] in tree
         && ValueAt(env.named, PipelineKey(Some(i), name))
              == StampedNamed(tree[sorted[i]].program.pipelines, name, sorted[i], i)
  }

  /** Every alias of the tree leads to a file of the tree, as loading guarantees. */
  ghost predicate AliasesInTree(tree: map<Path, ModuleInfo>) {
    forall p, a :: p in tree && a in tree[p].imports ==> tree[p].imports[a] in tree
  }

  /** Build the symbol tables from the main program and any enumeration of the loaded files. Symbols of the main
      file stay reachable without a number, except resolvers that some loaded file defines: the last file's is
      found. */
  method BuildRuntime(main: Program, tree: map<Path, ModuleInfo>, files: seq<Path>, less: (Path, Path) -> bool)
    returns (named: Pipelines, variables: Variables, registry: ModuleRegistry, ids: map<Path, nat>, sorted: seq<Path>)
    requires StrictOrder(less) && Distinct(files) && Elements(files) == tree.Keys
    ensures Ascending(sorted, less) && registry.pathToId == ids
    ensures forall i :: 0 <= i < |sorted| ==> sorted[i] in tree
    ensures forall env: Env :: env.named == named && env.modules == registry.modules ==> Built(env, tree, sorted, ids)
    ensures forall name :: ValueAt(named, PipelineKey(None, name))
                             == OrElse(ResolverUpTo(tree, sorted, |sorted|, name), LocalNamed(main, name))
    ensures forall i, kind, name :: 0 <= i < |sorted| ==>
              ValueAt(variables, VariableKey(Some(i), kind, name))
                == LastVariable(tree[sorted[i]].program.variables, kind, name)
    ensures forall kind, name ::
              ValueAt(variables, VariableKey(None, kind, name)) == LastVariable(main.variables, kind, name)
  {
    hide ImportIds, StampedNamed, LastNamed, LastVariable, LastResolver, Prefixed, SortPaths, ResolverUpTo;
    SortProps(files, less);
    sorted := SortPaths(files, less);
    AscendingDistinct(sorted, less);
    hide Ascending, StrictOrder;
    ids := NumberPaths(sorted);
    registry := new ModuleRegistry();
    RegisterModules(tree, sorted, ids, registry);
    var localNamed, localVariables := RegisterLocal(main);
    hide ValueAt, Registered, Numbers, Distinct;
    named, variables := RegisterSymbols(tree, sorted, ids, localNamed, localVariables);
  }

  lemma AscendingDistinct(s: seq<Path>, less: (Path, Path) -> bool)
    requires StrictOrder(less) && Ascending(s, less)
    ensures Distinct(s)
  {
  }

  // ----- merging programs -----

  /** What a merge gathers. */
  datatype Gathered = Gathered(
    variables: seq<NamedVariable>, pipelines: seq<NamedPipeline>, routes: seq<Route>,
    queries: seq<NamedPipeline>, mutations: seq<NamedPipeline>, resolvers: seq<NamedPipeline>,
    schemas: seq<string>)

  /** One file's pipelines, stamped with its number. */
  function StampedAll(pipelines: seq<NamedPipeline>, file: string, id: nat): seq<NamedPipeline> {
    seq(|pipelines|, k requires 0 <= k < |pipelines| =>
          pipelines[k].(pipeline := Stamp(pipelines[k].pipeline, file, id)))
  }

  function StampedRef(r: PipelineRef, file: string, id: nat): PipelineRef {
    match r
    case Inline(p) => Inline(Stamp(p, file, id))
    case Named(_) => r
  }

  function StampedRoutes(routes: seq<Route>, file: string, id: nat): seq<Route> {
    seq(|routes|, k requires 0 <= k < |routes| => routes[k].(target := StampedRef(routes[k].target, file, id)))
  }

  function AddFile(m: Gathered, p: Program, file: string, id: nat): Gathered {
    Gathered(m.variables + p.variables, m.pipelines + StampedAll(p.pipelines, file, id),
          m.routes + StampedRoutes(p.routes, file, id), m.queries + StampedAll(p.queries, file, id),
          m.mutations + StampedAll(p.mutations, file, id), m.resolvers + StampedAll(p.resolvers, file, id),
          m.schemas + if p.schema.Some? then [p.schema.value] else [])
  }

  /** The programs of the first `n` files, in order. */
  function Merged(tree: map<Path, ModuleInfo>, sorted: seq<Path>, n: nat): Gathered
    requires n <= |sorted| && forall i :: 0 <= i < |sorted| ==> sorted[i] in tree
  {
    if n == 0 then Gathered([], [], [], [], [], [], [])
    else AddFile(Merged(tree, sorted, n - 1), tree[sorted[n - 1]].program, sorted[n - 1], n - 1)
  }

  datatype Part = OwnPipelines | Queries | Mutations | Resolvers

  function PartOf(p: Program, part: Part): seq<NamedPipeline> {
    match part
    case OwnPipelines => p.pipelines
    case Queries => p.queries
    case Mutations => p.mutations
    case Resolvers => p.resolvers
  }

  function GatheredPart(m: Gathered, part: Part): seq<NamedPipeline> {
    match part
    case OwnPipelines => m.pipelines
    case Queries => m.queries
    case Mutations => m.mutations
    case Resolvers => m.resolvers
  }

  /** `own` stands in `all` from position `start` on, each pipeline under its name and stamped. */
  predicate StandsFrom(own: seq<NamedPipeline>, file: string, id: nat, all: seq<NamedPipeline>, start: nat) {
    && start + |own| <= |all|
    && forall k :: 0 <= k < |own| ==> all[start + k] == NamedPipeline(own[k].name, Stamp(own[k].pipeline, file, id))
  }

  /** The part of the `i`-th file stands between two marks. */
  predicate PartStands(tree: map<Path, ModuleInfo>, sorted: seq<Path>, i: nat, part: Part, all: seq<NamedPipeline>,
                       starts: seq<nat>)
    requires i < |sorted| && sorted[i] in tree
  {
    var own := PartOf(tree[sorted[i]].program, part);
    i + 1 < |starts| && starts[i + 1] == starts[i] + |own| && StandsFrom(own, sorted[i], i, all, starts[i])
  }

  /** The merge lists a part of every file, each file's stamped and in its order behind those of the files before
      it, and nothing else. */
  lemma {:induction false} MergedLists(tree: map<Path, ModuleInfo>, sorted: seq<Path>, n: nat, part: Part)
    returns (starts: seq<nat>)
    requires n <= |sorted| && forall i :: 0 <= i < |sorted| ==> sorted[i] in tree
    ensures var all := GatheredPart(Merged(tree, sorted, n), part);
            && |starts| == n + 1 && starts[0] == 0 && starts[n] == |all|
            && forall i :: 0 <= i < n ==> PartStands(tree, sorted, i, part, all, starts)
  {
    if n == 0 {
      starts := [0];
    } else {
      var before := GatheredPart(Merged(tree, sorted, n - 1), part);
      var all := GatheredPart(Merged(tree, sorted, n), part);
      var earlier := MergedLists(tree, sorted, n - 1, part);
      PartGathered(tree, sorted, n, part);
      starts := earlier + [|all|];
      hide *;
      forall i | 0 <= i < n ensures PartStands(tree, sorted, i, part, all, starts) {
        if i < n - 1 { StandsLonger(tree, sorted, i, part, before, all, earlier, starts); }
        else { StandsNew(tree, sorted, n, part, all, starts); }
      }
    }
  }

  lemma StandsNew(tree: map<Path, ModuleInfo>, sorted: seq<Path>, n: nat, part: Part, all: seq<NamedPipeline>,
                  starts: seq<nat>)
    requires 0 < n <= |sorted| && sorted[n - 1] in tree && |starts| == n + 1 && starts[n] == |all|
    requires var own := PartOf(tree[sorted[n - 1]].program, part);
             |all| == starts[n - 1] + |own| && StandsFrom(own, sorted[n - 1], n - 1, all, starts[n - 1])
    ensures PartStands(tree, sorted, n - 1, part, all, starts)
  {
    hide StandsFrom, PartOf;
  }

  lemma StandsLonger(tree: map<Path, ModuleInfo>, sorted: seq<Path>, i: nat, part: Part, all: seq<NamedPipeline>,
                     more: seq<NamedPipeline>, starts: seq<nat>, longer: seq<nat>)
    requires i < |sorted| && sorted[i] in tree && all <= more && starts <= longer
    requires PartStands(tree, sorted, i, part, all, starts)
    ensures PartStands(tree, sorted, i, part, more, longer)
  {
    hide Stamp;
  }

  lemma PartGathered(tree: map<Path, ModuleInfo>, sorted: seq<Path>, n: nat, part: Part)
    requires 0 < n <= |sorted| && forall i :: 0 <= i < |sorted| ==> sorted[i] in tree
    ensures var before := GatheredPart(Merged(tree, sorted, n - 1), part);
            var all := GatheredPart(Merged(tree, sorted, n), part);
            var own := PartOf(tree[sorted[n - 1]].program, part);
            && before <= all && |all| == |before| + |own|
            && StandsFrom(own, sorted[n - 1], n - 1, all, |before|)
  {
    hide Stamp;
  }

  /** So it does for routes, whose own pipelines are stamped while their references stay, for variables, and for the
      schemas of the files that have one. */
  lemma {:induction false} MergedRest(tree: map<Path, ModuleInfo>, sorted: seq<Path>, n: nat, i: nat, k: nat)
    requires n <= |sorted| && forall i :: 0 <= i < |sorted| ==> sorted[i] in tree
    requires i < n
    ensures var own := tree[sorted[i]].program;
            var m, before := Merged(tree, sorted, n), Merged(tree, sorted, i);
            && before.variables + own.variables <= m.variables
            && before.schemas + (if own.schema.Some? then [own.schema.value] else []) <= m.schemas
            && |before.routes| + |own.routes| <= |m.routes|
            && (k < |own.routes| ==>
                  m.routes[|before.routes| + k] == Route(own.routes[k].head,
                    match own.routes[k].target
                    case Inline(p) => Inline(Stamp(p, sorted[i], i))
                    case Named(name) => Named(name)))
    ensures n == i + 1 ==>
              var own := tree[sorted[i]].program;
              var m, before := Merged(tree, sorted, n), Merged(tree, sorted, i);
              && m.variables == before.variables + own.variables && |m.routes| == |before.routes| + |own.routes|
              && m.schemas == before.schemas + if own.schema.Some? then [own.schema.value] else []
    decreases n
  {
    hide Stamp;
    if i < n - 1 { MergedRest(tree, sorted, n - 1, i, k); }
  }

  /** Gathered the programs of a tree, stamping everything that runs with the number of its file. */
  method MergePrograms(tree: map<Path, ModuleInfo>, files: seq<Path>, less: (Path, Path) -> bool)
    returns (merged: Gathered, ids: map<Path, nat>, sorted: seq<Path>)
    requires StrictOrder(less) && Distinct(files) && Elements(files) == tree.Keys
    ensures Ascending(sorted, less) && Elements(sorted) == tree.Keys && Numbers(ids, sorted)
    ensures forall i :: 0 <= i < |sorted| ==> sorted[i] in tree
    ensures merged == Merged(tree, sorted, |sorted|)
  {
    hide AddFile, SortPaths;
    SortProps(files, less);
    sorted := SortPaths(files, less);
    AscendingDistinct(sorted, less);
    ids := NumberPaths(sorted);
    assert forall i :: 0 <= i < |sorted| ==> sorted[i] in Elements(sorted);
    merged := Gathered([], [], [], [], [], [], []);
    for i := 0 to |sorted|
      invariant merged == Merged(tree, sorted, i)
    {
      merged := MergeFile(merged, tree[sorted[i]].program, sorted[i], ids[sorted[i]]);
    }
  }

  method MergeFile(m: Gathered, p: Program, file: string, id: nat) returns (merged: Gathered)
    ensures merged == AddFile(m, p, file, id)
  {
    hide StampedAll, StampedRoutes;
    var schemas := m.schemas;
    if p.schema.Some? { schemas := schemas + [p.schema.value]; }
    var queries := StampAll(p.queries, file, id);
    var mutations := StampAll(p.mutations, file, id);
    var resolvers := StampAll(p.resolvers, file, id);
    var routes := StampRoutes(p.routes, file, id);
    var pipelines := StampAll(p.pipelines, file, id);
    merged := Gathered(m.variables + p.variables, m.pipelines + pipelines, m.routes + routes, m.queries + queries,
                    m.mutations + mutations, m.resolvers + resolvers, schemas);
  }

  method StampAll(pipelines: seq<NamedPipeline>, file: string, id: nat) returns (stamped: seq<NamedPipeline>)
    ensures stamped == StampedAll(pipelines, file, id)
  {
    hide Stamp;
    stamped := [];
    for k := 0 to |pipelines|
      invariant stamped == StampedAll(pipelines, file, id)[..k]
    {
      stamped := stamped + [pipelines[k].(pipeline := Stamp(pipelines[k].pipeline, file, id))];
    }
  }

  method StampRoutes(routes: seq<Route>, file: string, id: nat) returns (stamped: seq<Route>)
    ensures stamped == StampedRoutes(routes, file, id)
  {
    hide Stamp;
    stamped := [];
    for k := 0 to |routes|
      invariant stamped == StampedRoutes(routes, file, id)[..k]
    {
      stamped := stamped + [routes[k].(target := StampedRef(routes[k].target, file, id))];
    }
  }

  /** The pipeline belongs, at every depth, to one of the first `n` files. */
  ghost predicate OfTree(p: Pipeline, sorted: seq<Path>, n: nat)
    requires n <= |sorted|
  {
    exists j :: 0 <= j < n && Belongs(p, sorted[j], j)
  }

  ghost predicate AllOfTree(pipelines: seq<NamedPipeline>, sorted: seq<Path>, n: nat)
    requires n <= |sorted|
  {
    forall k :: 0 <= k < |pipelines| ==> OfTree(pipelines[k].pipeline, sorted, n)
  }

  ghost predicate RoutesOfTree(routes: seq<Route>, sorted: seq<Path>, n: nat)
    requires n <= |sorted|
  {
    forall k :: 0 <= k < |routes| && routes[k].target.Inline? ==> OfTree(routes[k].target.pipeline, sorted, n)
  }

  lemma MoreOfTree(pipelines: seq<NamedPipeline>, more: seq<NamedPipeline>, sorted: seq<Path>, n: nat)
    requires n < |sorted| && AllOfTree(pipelines, sorted, n)
    ensures AllOfTree(pipelines + StampedAll(more, sorted[n], n), sorted, n + 1)
  {
    hide Belongs, Stamp;
    var all := pipelines + StampedAll(more, sorted[n], n);
    forall k | 0 <= k < |all| ensures OfTree(all[k].pipeline, sorted, n + 1) {
      if k < |pipelines| {
        assert OfTree(pipelines[k].pipeline, sorted, n);
      } else {
        StampBelongs(more[k - |pipelines|].pipeline, sorted[n], n);
        assert Belongs(all[k].pipeline, sorted[n], n);
      }
    }
  }

  lemma MoreRoutesOfTree(routes: seq<Route>, more: seq<Route>, sorted: seq<Path>, n: nat)
    requires n < |sorted| && RoutesOfTree(routes, sorted, n)
    ensures RoutesOfTree(routes + StampedRoutes(more, sorted[n], n), sorted, n + 1)
  {
    hide Belongs, Stamp;
    var all := routes + StampedRoutes(more, sorted[n], n);
    forall k | 0 <= k < |all| && all[k].target.Inline? ensures OfTree(all[k].target.pipeline, sorted, n + 1) {
      if k < |routes| {
        assert OfTree(routes[k].target.pipeline, sorted, n);
      } else {
        StampBelongs(more[k - |routes|].target.pipeline, sorted[n], n);
        assert Belongs(all[k].target.pipeline, sorted[n], n);
      }
    }
  }

  ghost predicate GatheredOfTree(m: Gathered, sorted: seq<Path>, n: nat)
    requires n <= |sorted|
  {
    && AllOfTree(m.pipelines, sorted, n) && AllOfTree(m.queries, sorted, n) && AllOfTree(m.mutations, sorted, n)
    && AllOfTree(m.resolvers, sorted, n) && RoutesOfTree(m.routes, sorted, n)
  }

  lemma MoreGathered(m: Gathered, p: Program, sorted: seq<Path>, n: nat)
    requires n < |sorted| && GatheredOfTree(m, sorted, n)
    ensures GatheredOfTree(AddFile(m, p, sorted[n], n), sorted, n + 1)
  {
    hide AllOfTree, RoutesOfTree, StampedAll, StampedRoutes;
    MoreOfTree(m.pipelines, p.pipelines, sorted, n);
    MoreOfTree(m.queries, p.queries, sorted, n);
    MoreOfTree(m.mutations, p.mutations, sorted, n);
    MoreOfTree(m.resolvers, p.resolvers, sorted, n);
    MoreRoutesOfTree(m.routes, p.routes, sorted, n);
  }

  /** Everything a merge gathers that can run belongs, at every depth, to a file of the tree. */
  lemma {:induction false} MergedBelong(tree: map<Path, ModuleInfo>, sorted: seq<Path>, n: nat)
    requires n <= |sorted| && forall i :: 0 <= i < |sorted| ==> sorted[i] in tree
    ensures GatheredOfTree(Merged(tree, sorted, n), sorted, n)
  {
    if n > 0 {
      hide GatheredOfTree, AddFile;
      MergedBelong(tree, sorted, n - 1);
      MoreGathered(Merged(tree, sorted, n - 1), tree[sorted[n - 1]].program, sorted, n - 1);
    }
  }

  /** The two numberings agree, whatever order the files were enumerated in. */
  lemma NumberingsAgree(a: seq<Path>, b: seq<Path>, x: map<Path, nat>, y: map<Path, nat>, less: (Path, Path) -> bool)
    requires StrictOrder(less) && Ascending(a, less) && Ascending(b, less) && Elements(a) == Elements(b)
    requires Numbers(x, a) && Numbers(y, b)
    ensures x == y
  {
    AscendingUnique(a, b, less);
    forall p | p in x ensures y[p] == x[p] {
      assert p in Elements(a);
    }
  }

  /** Scoped resolution end to end: from a step of module `m`, `alias::name` finds exactly the pipeline of that name in
      the imported file, stamped with that file's number, or nothing. */
  lemma ScopedResolution(env: Env, tree: map<Path, ModuleInfo>, sorted: seq<Path>, ids: map<Path, nat>,
                         m: Path, alias: string, name: string, loc: Location)
    requires Built(env, tree, sorted, ids) && AliasesInTree(tree)
    requires m in tree && alias in tree[m].imports && loc.moduleId == Some(ids[m])
    requires IsIdentifierPart(alias) && IsIdentifierPart(name)
    ensures var target := tree[m].imports[alias];
            && ResolveNamed(env, loc, alias + "::" + name)
                 == StampedNamed(tree[target].program.pipelines, name, target, ids[target])
            && (ResolveNamed(env, loc, alias + "::" + name).Some? ==>
                  Belongs(ResolveNamed(env, loc, alias + "::" + name).value, target, ids[target]))
  {
    hide Stamp, LastNamed;
    var target := tree[m].imports[alias];
    ScopedRefReads(alias, name);
    assert m in Elements(sorted) && target in Elements(sorted);
    assert AliasTarget(env, loc, alias) == Some(ids[target]);
    assert sorted[ids[target]] == target;
    assert ValueAt(env.named, PipelineKey(Some(ids[target]), name))
        == StampedNamed(tree[target].program.pipelines, name, target, ids[target]);
    var found := LastNamed(tree[target].program.pipelines, name);
    if found.Some? { StampBelongs(found.value, target, ids[target]); }
  }

  /** The merge and the runtime, each from its own enumeration of the files: a scoped reference in a step of
      anything that was merged is resolved in the runtime's tables as one of the file that the step came from. */
  lemma MergedStepsResolve(env: Env, tree: map<Path, ModuleInfo>, mergeOrder: seq<Path>, sorted: seq<Path>,
                           ids: map<Path, nat>, less: (Path, Path) -> bool, p: Pipeline, alias: string, name: string)
    returns (m: Path)
    requires StrictOrder(less) && Ascending(mergeOrder, less) && Ascending(sorted, less)
    requires Elements(mergeOrder) == tree.Keys && Built(env, tree, sorted, ids) && AliasesInTree(tree)
    requires OfTree(p, mergeOrder, |mergeOrder|)
    requires IsIdentifierPart(alias) && IsIdentifierPart(name)
    ensures m in tree && m in ids && Belongs(p, m, ids[m])
    ensures forall loc: Location :: loc.moduleId == Some(ids[m]) && alias in tree[m].imports ==>
              var target := tree[m].imports[alias];
              && target in tree && target in ids
              && ResolveNamed(env, loc, alias + "::" + name)
                   == StampedNamed(tree[target].program.pipelines, name, target, ids[target])
  {
    hide Stamp, Belongs, ResolveNamed, StampedNamed, Ascending, IsIdentifierPart;
    AscendingUnique(mergeOrder, sorted, less);
    var j :| 0 <= j < |mergeOrder| && Belongs(p, mergeOrder[j], j);
    m := mergeOrder[j];
    assert m in Elements(mergeOrder);
    forall loc: Location | loc.moduleId == Some(ids[m]) && alias in tree[m].imports
      ensures var target := tree[m].imports[alias];
              && target in tree && target in ids
              && ResolveNamed(env, loc, alias + "::" + name)
                   == StampedNamed(tree[target].program.pipelines, name, target, ids[target])
    {
      ScopedResolution(env, tree, sorted, ids, m, alias, name, loc);
    }
  }
}

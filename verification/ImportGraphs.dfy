/** File systems and the graph of their imports. */
module ImportGraphs {
  import opened Base
  import opened Programs

  datatype File = Unreadable | Unparsable | Parsed(program: Program)

  /** `canonicalize` resolves any path, `resolve` an import relative to the importing file. */
  datatype FileSystem = FileSystem(files: map<Path, File>, canonicalize: string -> Option<Path>,
                                   resolve: (Path, string) -> Option<Path>)

  ghost predicate DistinctAliases(imports: seq<Import>) {
    forall i, j :: 0 <= i < j < |imports| ==> imports[i].alias != imports[j].alias
  }

  /** Canonical paths are fixed points and exist; the parser rejects repeated aliases. */
  ghost predicate WellFormed(fs: FileSystem) {
    && (forall p :: fs.canonicalize(p).Some? ==>
          var c := fs.canonicalize(p).value; c in fs.files && fs.canonicalize(c) == Some(c))
    && (forall p, i :: fs.resolve(p, i).Some? ==>
          var c := fs.resolve(p, i).value; c in fs.files && fs.canonicalize(c) == Some(c))
    && (forall p :: p in fs.files && fs.files[p].Parsed? ==> DistinctAliases(fs.files[p].program.imports))
  }

  function Imports(fs: FileSystem, p: Path): seq<Import> {
    if p in fs.files && fs.files[p].Parsed? then fs.files[p].program.imports else []
  }

  ghost predicate Edge(fs: FileSystem, p: Path, q: Path) {
    exists i :: 0 <= i < |Imports(fs, p)| && fs.resolve(p, Imports(fs, p)[i].path) == Some(q)
  }

  ghost predicate IsPath(fs: FileSystem, ps: seq<Path>) {
    ps != [] && forall i :: 0 <= i < |ps| - 1 ==> Edge(fs, ps[i], ps[i + 1])
  }

  ghost predicate NoDup(ps: seq<Path>) {
    forall i, j :: 0 <= i < j < |ps| ==> ps[i] != ps[j]
  }

  /** The file parses and all of its imports resolve. */
  ghost predicate Healthy(fs: FileSystem, p: Path) {
    && p in fs.files && fs.files[p].Parsed?
    && forall i :: 0 <= i < |Imports(fs, p)| ==> fs.resolve(p, Imports(fs, p)[i].path).Some?
  }

  ghost predicate PathFrom(fs: FileSystem, ps: seq<Path>, root: Path) { IsPath(fs, ps) && ps[0] == root }

  /** Every file reachable from the root is healthy, and no import path from it ever repeats a file. */
  ghost predicate Sound(fs: FileSystem, root: Path) {
    forall ps :: PathFrom(fs, ps, root) ==> Healthy(fs, ps[|ps| - 1]) && NoDup(ps)
  }

  ghost predicate Reachable(fs: FileSystem, root: Path, p: Path) {
    exists ps :: PathFrom(fs, ps, root) && ps[|ps| - 1] == p
  }

  ghost predicate Loadable(fs: FileSystem, path: string) {
    fs.canonicalize(path).Some? && Sound(fs, fs.canonicalize(path).value)
  }

  /** A closed walk along imports. */
  ghost predicate RealCycle(fs: FileSystem, cycle: seq<Path>) {
    |cycle| >= 2 && IsPath(fs, cycle) && cycle[0] == cycle[|cycle| - 1]
  }

  lemma ConsPath(fs: FileSystem, p: Path, q: Path, qs: seq<Path>)
    requires Edge(fs, p, q) && PathFrom(fs, qs, q)
    ensures PathFrom(fs, [p] + qs, p)
  {
    var ps := [p] + qs;
    forall i | 0 <= i < |ps| - 1 ensures Edge(fs, ps[i], ps[i + 1]) {
      if i > 0 { assert Edge(fs, qs[i - 1], qs[i - 1 + 1]); }
    }
  }

  lemma SoundImport(fs: FileSystem, p: Path, q: Path)
    requires Sound(fs, p) && Edge(fs, p, q)
    ensures Sound(fs, q)
  {
    forall qs | PathFrom(fs, qs, q) ensures Healthy(fs, qs[|qs| - 1]) && NoDup(qs) {
      hide Edge, Healthy;
      var ps := [p] + qs;
      ConsPath(fs, p, q, qs);
      assert ps[|ps| - 1] == qs[|qs| - 1];
      forall i, j | 0 <= i < j < |qs| ensures qs[i] != qs[j] { assert ps[i + 1] != ps[j + 1]; }
    }
  }

  lemma SoundIsHealthy(fs: FileSystem, p: Path)
    requires Sound(fs, p)
    ensures Healthy(fs, p)
  {
    assert PathFrom(fs, [p], p);
  }

  /** A set of files that contains every import of its members. */
  ghost predicate Closed(fs: FileSystem, s: set<Path>) {
    forall p, q :: p in s && Edge(fs, p, q) ==> q in s
  }

  lemma {:induction false} ClosedPath(fs: FileSystem, s: set<Path>, ps: seq<Path>, i: nat)
    requires Closed(fs, s) && IsPath(fs, ps) && ps[0] in s && i < |ps|
    ensures ps[i] in s
    decreases i
  {
    if i > 0 {
      ClosedPath(fs, s, ps, i - 1);
      assert Edge(fs, ps[i - 1], ps[(i - 1) + 1]);
    }
  }

  /** A healthy file outside a closed set of sound files, all of whose imports are inside, is sound. */
  lemma SoundByImports(fs: FileSystem, p: Path, s: set<Path>)
    requires Healthy(fs, p) && p !in s && Closed(fs, s)
    requires forall q :: Edge(fs, p, q) ==> q in s
    requires forall q :: q in s ==> Sound(fs, q)
    ensures Sound(fs, p)
  {
    forall ps | PathFrom(fs, ps, p) ensures Healthy(fs, ps[|ps| - 1]) && NoDup(ps) {
      if |ps| > 1 {
        var qs := ps[1..];
        assert Edge(fs, ps[0], ps[0 + 1]);
        assert PathFrom(fs, qs, ps[1]) by {
          forall i | 0 <= i < |qs| - 1 ensures Edge(fs, qs[i], qs[i + 1]) {
            assert Edge(fs, ps[i + 1], ps[(i + 1) + 1]);
          }
        }
        forall i, j | 0 <= i < j < |ps| ensures ps[i] != ps[j] {
          ClosedPath(fs, s, qs, j - 1);
          assert ps[j] == qs[j - 1];
          if i > 0 { assert ps[i] == qs[i - 1]; }
        }
      }
    }
  }

  lemma {:induction false} NoDupSize(ps: seq<Path>, all: set<Path>)
    requires NoDup(ps) && Elements(ps) <= all
    ensures |ps| == |Elements(ps)| <= |all|
    decreases |ps|
  {
    SubsetSize(Elements(ps), all);
    if ps != [] {
      var front := ps[..|ps| - 1];
      NoDupSize(front, all);
      assert Elements(ps) == Elements(front) + {ps[|ps| - 1]};
    }
  }
}

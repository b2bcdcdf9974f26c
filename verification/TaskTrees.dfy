/** The numbered machines seen as a tree: a machine with the machines its handles lead to. Since no handle is held
    twice, a step of one machine changes the tree in one place. */
module TaskTrees {
  import opened Base
  import opened Ast
  import opened Scheduling
  import opened Systems

  /** Handles lead to later machines. */
  ghost predicate Upward(procs: seq<Proc>) {
    forall i: nat, n :: Held(procs, i, n).Some? ==> i < Held(procs, i, n).value < |procs|
  }

  ghost function Tree(procs: seq<Proc>, j: nat): Node
    requires Upward(procs) && j < |procs|
    decreases |procs| - j
  {
    Node(procs[j].c, map n | n in procs[j].handles ::
           assert Held(procs, j, n) == Some(procs[j].handles[n].id);
           Kid(Tree(procs, procs[j].handles[n].id), procs[j].handles[n].loc))
  }

  /** The machine at the end of a path of handle names. */
  ghost function IdAt(procs: seq<Proc>, j: nat, path: seq<string>): Option<nat>
    decreases |path|
  {
    if path == [] then Some(j)
    else
      match Held(procs, j, path[0])
      case None => None
      case Some(h) => IdAt(procs, h, path[1..])
  }

  /** `qs` is `procs` with at most machine `i` changed and machines added. */
  predicate ChangedAt(procs: seq<Proc>, qs: seq<Proc>, i: nat) {
    |procs| <= |qs| && forall k :: 0 <= k < |procs| && k != i ==> qs[k] == procs[k]
  }

  lemma KidsAbove(procs: seq<Proc>, j: nat)
    requires Upward(procs) && j < |procs|
    ensures forall n :: n in procs[j].handles ==>
              j < procs[j].handles[n].id < |procs| && Held(procs, j, n) == Some(procs[j].handles[n].id)
  {
    forall n | n in procs[j].handles ensures j < procs[j].handles[n].id < |procs| {
      assert Held(procs, j, n) == Some(procs[j].handles[n].id);
    }
  }

  /** Later machines make up the tree. */
  lemma {:induction false} TreeAbove(procs: seq<Proc>, qs: seq<Proc>, i: nat, j: nat)
    requires Upward(procs) && Upward(qs) && ChangedAt(procs, qs, i) && i < j < |procs|
    ensures Tree(qs, j) == Tree(procs, j)
    decreases |procs| - j
  {
    KidsAbove(procs, j);
    forall n | n in procs[j].handles ensures Tree(qs, procs[j].handles[n].id) == Tree(procs, procs[j].handles[n].id) {
      TreeAbove(procs, qs, i, procs[j].handles[n].id);
    }
  }

  /** A machine that no path leads to does not show in the tree. */
  lemma {:induction false} OffPath(procs: seq<Proc>, qs: seq<Proc>, i: nat, j: nat)
    requires Upward(procs) && Upward(qs) && ChangedAt(procs, qs, i) && j < |procs|
    requires forall path :: IdAt(procs, j, path) != Some(i)
    ensures Tree(qs, j) == Tree(procs, j)
    decreases |procs| - j
  {
    assert IdAt(procs, j, []) == Some(j);
    KidsAbove(procs, j);
    forall n | n in procs[j].handles ensures Tree(qs, procs[j].handles[n].id) == Tree(procs, procs[j].handles[n].id) {
      var h := procs[j].handles[n].id;
      assert Held(procs, j, n) == Some(h);
      forall path ensures IdAt(procs, h, path) != Some(i) {
        assert ([n] + path)[1..] == path;
        assert IdAt(procs, j, [n] + path) == IdAt(procs, h, path);
      }
      OffPath(procs, qs, i, h);
    }
  }

  lemma {:induction false} PathRises(procs: seq<Proc>, j: nat, path: seq<string>)
    requires Upward(procs) && j < |procs| && IdAt(procs, j, path).Some?
    ensures j <= IdAt(procs, j, path).value < |procs|
    ensures path != [] ==> j < IdAt(procs, j, path).value
    decreases |path|
  {
    if path != [] { PathRises(procs, Held(procs, j, path[0]).value, path[1..]); }
  }

  /** The last name of a path is held by the machine at the end of the rest. */
  lemma {:induction false} LastHandle(procs: seq<Proc>, j: nat, path: seq<string>)
    requires path != [] && IdAt(procs, j, path).Some?
    ensures var owner := IdAt(procs, j, path[..|path| - 1]);
            owner.Some? && Held(procs, owner.value, path[|path| - 1]) == IdAt(procs, j, path)
    decreases |path|
  {
    if |path| > 1 {
      LastHandle(procs, Held(procs, j, path[0]).value, path[1..]);
      assert path[..|path| - 1][1..] == path[1..][..|path| - 2];
    } else {
      assert path[..0] == [] && path[1..] == [];
    }
  }

  /** Only one path leads to a machine. */
  lemma {:induction false} PathUnique(procs: seq<Proc>, awaited: seq<nat>, j: nat, p: seq<string>, q: seq<string>)
    requires Owned(procs, awaited) && Upward(procs) && j < |procs|
    requires IdAt(procs, j, p).Some? && IdAt(procs, j, q) == IdAt(procs, j, p)
    ensures p == q
    decreases |p|
  {
    PathRises(procs, j, p);
    PathRises(procs, j, q);
    if p != [] && q != [] {
      LastHandle(procs, j, p);
      LastHandle(procs, j, q);
      PathUnique(procs, awaited, j, p[..|p| - 1], q[..|q| - 1]);
      assert p == p[..|p| - 1] + [p[|p| - 1]] && q == q[..|q| - 1] + [q[|q| - 1]];
    }
  }

  /** A step of a machine is a step of the tree at its path. */
  lemma {:induction false} OnPath(env: Runtime.Env, procs: seq<Proc>, awaited: seq<nat>, qs: seq<Proc>, i: nat,
                                  j: nat, path: seq<string>)
    requires Owned(procs, awaited) && Upward(procs) && Upward(qs) && ChangedAt(procs, qs, i) && j < |procs|
    requires i < |procs|
    requires IdAt(procs, j, path) == Some(i) && Tree(qs, i) == LocalStep(env, Tree(procs, i))
    ensures Tree(qs, j) == StepAt(env, Tree(procs, j), path)
    decreases |path|
  {
    hide LocalStep, Owned, Upward;
    if path != [] {
      PathRises(procs, j, path);
      var name := path[0];
      var h := Held(procs, j, name).value;
      OnPath(env, procs, awaited, qs, i, h, path[1..]);
      KidsAbove(procs, j);
      forall n | n in procs[j].handles && n != name
        ensures Tree(qs, procs[j].handles[n].id) == Tree(procs, procs[j].handles[n].id)
      {
        OtherKid(procs, awaited, i, j, path, n);
        OffPath(procs, qs, i, procs[j].handles[n].id);
      }
      KidStepped(env, procs, qs, j, name, path);
    }
  }

  lemma OtherKid(procs: seq<Proc>, awaited: seq<nat>, i: nat, j: nat, path: seq<string>, n: string)
    requires Owned(procs, awaited) && Upward(procs) && j < |procs| && IdAt(procs, j, path) == Some(i)
    requires path != [] && n in procs[j].handles && n != path[0]
    ensures forall more :: IdAt(procs, procs[j].handles[n].id, more) != Some(i)
  {
    hide Owned;
    var other := procs[j].handles[n].id;
    assert Held(procs, j, n) == Some(other);
    forall more ensures IdAt(procs, other, more) != Some(i) {
      assert ([n] + more)[1..] == more;
      assert IdAt(procs, j, [n] + more) == IdAt(procs, other, more);
      if IdAt(procs, j, [n] + more) == Some(i) { PathUnique(procs, awaited, j, [n] + more, path); }
    }
  }

  lemma KidStepped(env: Runtime.Env, procs: seq<Proc>, qs: seq<Proc>, j: nat, name: string, path: seq<string>)
    requires Upward(procs) && Upward(qs) && j < |procs| && |procs| <= |qs| && qs[j] == procs[j]
    requires path != [] && path[0] == name && name in procs[j].handles
    requires forall n :: n in procs[j].handles ==> procs[j].handles[n].id < |procs|
    requires Tree(qs, procs[j].handles[name].id) == StepAt(env, Tree(procs, procs[j].handles[name].id), path[1..])
    requires forall n :: n in procs[j].handles && n != name ==>
               Tree(qs, procs[j].handles[n].id) == Tree(procs, procs[j].handles[n].id)
    ensures Tree(qs, j) == StepAt(env, Tree(procs, j), path)
  {
    hide LocalStep;
    var before, after := Tree(procs, j), Tree(qs, j);
    assert after.kids == before.kids[name := before.kids[name].(node := after.kids[name].node)];
  }

  /** A path that leads nowhere steps nobody. */
  lemma {:induction false} AbsentPath(env: Runtime.Env, procs: seq<Proc>, j: nat, path: seq<string>)
    requires Upward(procs) && j < |procs| && IdAt(procs, j, path).None?
    ensures StepAt(env, Tree(procs, j), path) == Tree(procs, j)
    decreases |path|
  {
    var n := Tree(procs, j);
    if path[0] in procs[j].handles {
      var h := procs[j].handles[path[0]].id;
      assert Held(procs, j, path[0]) == Some(h);
      AbsentPath(env, procs, h, path[1..]);
      assert n.kids[path[0]].(node := n.kids[path[0]].node) == n.kids[path[0]];
      assert n.kids[path[0] := n.kids[path[0]]] == n.kids;
    }
  }

  // ----- the three ways in which a step changes its machine -----

  lemma KidsSame(procs: seq<Proc>, qs: seq<Proc>, i: nat)
    requires Upward(procs) && Upward(qs) && ChangedAt(procs, qs, i) && i < |procs|
    ensures forall n :: n in procs[i].handles ==>
              i < procs[i].handles[n].id < |procs|
              && Tree(qs, procs[i].handles[n].id) == Tree(procs, procs[i].handles[n].id)
  {
    KidsAbove(procs, i);
    forall n | n in procs[i].handles
      ensures Tree(qs, procs[i].handles[n].id) == Tree(procs, procs[i].handles[n].id)
    {
      TreeAbove(procs, qs, i, procs[i].handles[n].id);
    }
  }

  lemma MovedTree(procs: seq<Proc>, i: nat, c: Machine)
    requires i < |procs| && Upward(procs) && Upward(procs[i := procs[i].(c := c)])
    ensures Tree(procs[i := procs[i].(c := c)], i) == Tree(procs, i).(c := c)
  {
    KidsSame(procs, procs[i := procs[i].(c := c)], i);
    hide Upward;
  }

  lemma SpawnedTree(procs: seq<Proc>, qs: seq<Proc>, i: nat, name: string, child: Machine, loc: Location, c: Machine)
    requires i < |procs| && Upward(procs) && Upward(qs)
    requires qs == procs[i := Proc(c, procs[i].handles[name := Handle(|procs|, loc)])] + [Proc(child, map[])]
    ensures Tree(qs, i) == Node(c, Tree(procs, i).kids[name := Kid(Node(child, map[]), loc)])
  {
    KidsSame(procs, qs, i);
    NewcomerTree(procs, qs, child);
    hide Upward, ChangedAt;
    var kids := Tree(procs, i).kids[name := Kid(Node(child, map[]), loc)];
    assert Tree(qs, i).kids.Keys == kids.Keys;
    forall n | n in kids ensures Tree(qs, i).kids[n] == kids[n] {
    }
  }

  lemma NewcomerTree(procs: seq<Proc>, qs: seq<Proc>, child: Machine)
    requires Upward(qs) && |qs| == |procs| + 1 && qs[|procs|] == Proc(child, map[])
    ensures Tree(qs, |procs|) == Node(child, map[])
  {
    hide Upward;
  }

  lemma TakenTree(procs: seq<Proc>, i: nat, name: string, c: Machine)
    requires i < |procs| && Upward(procs) && Upward(procs[i := Proc(c, procs[i].handles - {name})])
    ensures Tree(procs[i := Proc(c, procs[i].handles - {name})], i) == Node(c, Tree(procs, i).kids - {name})
  {
    KidsSame(procs, procs[i := Proc(c, procs[i].handles - {name})], i);
    hide Upward;
  }
}

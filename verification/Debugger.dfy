/** Paused threads and the variable references handed to a debugging client. */
module Debugger {
  import opened Base
  import opened JsonValues
  import opened JsonPointers

  const STRIDE: int := 100_000
  const FRAMES: int := 10_000

  /** The enumeration of an object's keys that the JSON library fixes. */
  type KeyOrder = map<string, Json> -> seq<string>

  ghost predicate Enumerates(order: KeyOrder) {
    forall m: map<string, Json> ::
      |order(m)| == |m| && (forall i :: 0 <= i < |order(m)| ==> order(m)[i] in m)
      && (forall i, j :: 0 <= i < j < |order(m)| ==> order(m)[i] != order(m)[j])
  }

  /** The members of a set in some order. */
  ghost function Listed(s: set<string>): (l: seq<string>)
    ensures |l| == |s| && (forall i :: 0 <= i < |l| ==> l[i] in s)
    ensures forall i, j :: 0 <= i < j < |l| ==> l[i] != l[j]
  {
    if s == {} then [] else var x :| x in s; [x] + Listed(s - {x})
  }

  /** There is such an order. */
  lemma SomeOrder() returns (order: KeyOrder)
    ensures Enumerates(order)
  {
    order := (m: map<string, Json>) => Listed(m.Keys);
    forall m: map<string, Json> ensures |order(m)| == |m| {
      assert |m| == |m.Keys|;
    }
  }

  datatype SteppingMode = StepInto | StepOver(depth: nat) | StepOut(depth: nat)

  datatype Paused = Paused(state: Json, stack: seq<string>, index: nat)

  datatype Session = Session(
    paused: map<int, Paused>,
    stepping: map<int, SteppingMode>,
    cache: map<int, Json>,
    pointers: map<int, string>)

  /** A line of the client's variables panel. */
  datatype Variable = Variable(name: string, preview: string, reference: int)

  // ----- references -----

  /** Integer division and remainder truncate toward zero. */
  function Quotient(a: int, b: int): int
    requires b > 0
  {
    if a >= 0 then a / b else -((-a) / b)
  }

  function ThreadOf(reference: int): int { Quotient(reference, STRIDE) }

  function OffsetOf(reference: int): int { reference - STRIDE * ThreadOf(reference) }

  function RefOf(thread: int, index: int): int { thread * STRIDE + index }

  lemma RefParts(thread: int, index: int)
    requires thread >= 0 && 0 <= index < STRIDE
    ensures ThreadOf(RefOf(thread, index)) == thread && OffsetOf(RefOf(thread, index)) == index
  {
  }

  predicate Complex(v: Json) { v.Object? || v.Array? }

  function Preview(v: Json): string {
    match v
    case Object(_) => "{...}"
    case Array(items) => "[" + Decimal(|items|) + " items]"
    case String(s) => "\"" + s + "\""
    case Number(text) => text
    case Bool(b) => if b then "true" else "false"
    case Null => "null"
  }

  // ----- expanding a value -----

  /** A child as it is shown, with the token that leads to it. */
  datatype Kid = Kid(name: string, token: string, value: Json)

  function Kids(v: Json, order: KeyOrder): seq<Kid> {
    match v
    case Object(fields) =>
      var keys := order(fields);
      seq(|keys|, i requires 0 <= i < |keys| =>
            Kid(keys[i], Escape(keys[i]), if keys[i] in fields then fields[keys[i]] else Null))
    case Array(items) =>
      seq(|items|, i requires 0 <= i < |items| => Kid("[" + Decimal(i) + "]", Decimal(i), items[i]))
    case _ => []
  }

  function Bump(p: Paused): Paused { p.(index := p.index + 1) }

  /** Show one child; an object or an array gets the thread's next reference. */
  function Show(s: Session, thread: int, parent: string, kid: Kid): (Session, Variable)
    requires thread in s.paused
  {
    if !Complex(kid.value) then (s, Variable(kid.name, Preview(kid.value), 0))
    else
      var reference := RefOf(thread, s.paused[thread].index + 1);
      (Session(s.paused[thread := Bump(s.paused[thread])], s.stepping,
               s.cache[reference := kid.value], s.pointers[reference := parent + "/" + kid.token]),
       Variable(kid.name, Preview(kid.value), reference))
  }

  function ShowAll(s: Session, thread: int, parent: string, kids: seq<Kid>): (r: (Session, seq<Variable>))
    requires thread in s.paused
    ensures thread in r.0.paused
  {
    if kids == [] then (s, [])
    else
      var before := ShowAll(s, thread, parent, kids[..|kids| - 1]);
      var last := Show(before.0, thread, parent, kids[|kids| - 1]);
      (last.0, before.1 + [last.1])
  }

  function Expand(s: Session, thread: int, parent: string, v: Json, order: KeyOrder): (r: (Session, seq<Variable>))
    requires thread in s.paused
    ensures thread in r.0.paused
  {
    if Complex(v) then ShowAll(s, thread, parent, Kids(v, order)) else (s, [Variable("value", Preview(v), 0)])
  }

  function PointerOf(s: Session, reference: int): string {
    if reference in s.pointers then s.pointers[reference] else ""
  }

  /** The value a variables request expands: the paused state for offset one, a cached value otherwise. */
  function Target(s: Session, reference: int): Option<Json> {
    var thread := ThreadOf(reference);
    if OffsetOf(reference) == 1 then (if thread in s.paused then Some(s.paused[thread].state) else None)
    else if reference in s.cache && thread in s.paused then Some(s.cache[reference])
    else None
  }

  // ----- requests -----

  datatype Request =
    | BeforeStep(thread: nat, state: Json, stack: seq<string>, atBreakpoint: bool)
    | Scopes(frame: int)
    | Variables(reference: int)
    | Continue(id: int)
    | Next(id: int)
    | StepIn(id: int)
    | StepOutOf(id: int)
    | Disconnect

  predicate Pauses(s: Session, thread: int, depth: nat, atBreakpoint: bool) {
    atBreakpoint
    || (thread in s.stepping
        && match s.stepping[thread]
           case StepInto => true
           case StepOver(target) => depth <= target
           case StepOut(target) => depth < target)
  }

  function RootRef(frame: int): int { RefOf(Quotient(frame, FRAMES), 1) }

  predicate OwnRef(thread: int, reference: int) {
    thread * STRIDE <= reference <= thread * STRIDE + STRIDE - 1
  }

  function Cleared(s: Session, thread: int): Session {
    s.(cache := map r | r in s.cache && !OwnRef(thread, r) :: s.cache[r],
       pointers := map r | r in s.pointers && !OwnRef(thread, r) :: s.pointers[r])
  }

  function Depth(s: Session, thread: int): nat { if thread in s.paused then |s.paused[thread].stack| else 1 }

  /** Forget the thread's references and let it go on, in the given stepping mode if there is one. */
  function Resume(s: Session, thread: int, mode: Option<SteppingMode>): Session {
    var c := Cleared(s, thread);
    Session(c.paused - {thread}, if mode.Some? then c.stepping[thread := mode.value] else c.stepping - {thread},
            c.cache, c.pointers)
  }

  function Apply(s: Session, r: Request, order: KeyOrder): Session {
    match r
    case BeforeStep(thread, state, stack, atBreakpoint) =>
      if Pauses(s, thread, |stack|, atBreakpoint)
      then s.(stepping := s.stepping - {thread}, paused := s.paused[thread as int := Paused(state, stack, 1)])
      else s
    case Scopes(frame) => s.(pointers := s.pointers[RootRef(frame) := ""])
    case Variables(reference) =>
      (match Target(s, reference)
       case None => s
       case Some(v) => Expand(s, ThreadOf(reference), PointerOf(s, reference), v, order).0)
    case Continue(id) => Resume(s, id, None)
    case Next(id) => Resume(s, id, Some(StepOver(Depth(s, id))))
    case StepIn(id) => Resume(s, id, Some(StepInto))
    case StepOutOf(id) => Resume(s, id, Some(StepOut(Depth(s, id))))
    case Disconnect => s.(paused := map[])
  }

  const START: Session := Session(map[], map[], map[], map[])

  function Run(rs: seq<Request>, order: KeyOrder): Session {
    if rs == [] then START else Apply(Run(rs[..|rs| - 1], order), rs[|rs| - 1], order)
  }

  // ----- what a client may rely on -----

  /** The reference belongs to a paused thread, was handed out by it, and its pointer leads in the paused state to the
      cached value. */
  predicate Resolves(s: Session, reference: int) {
    var thread := ThreadOf(reference);
    && thread in s.paused && reference in s.cache && reference in s.pointers
    && 2 <= OffsetOf(reference) <= s.paused[thread].index
    && Resolve(s.paused[thread].state, s.pointers[reference]) == Some(s.cache[reference])
  }

  predicate Sound(s: Session) {
    && (forall t :: t in s.paused ==> t >= 0 && 1 <= s.paused[t].index < STRIDE)
    && (forall r :: r in s.cache ==> Resolves(s, r))
    && (forall r :: r in s.pointers && r !in s.cache ==> s.pointers[r] == "" && OffsetOf(r) <= 1)
  }

  function CountComplex(kids: seq<Kid>): nat {
    if kids == [] then 0 else CountComplex(kids[..|kids| - 1]) + if Complex(kids[|kids| - 1].value) then 1 else 0
  }

  /** No second pause of a thread with references, fewer references than the stride, and no references left in the
      tables by a disconnect. The last concerns the tables only: no client is there to see them. */
  predicate Orderly(s: Session, r: Request, order: KeyOrder) {
    match r
    case BeforeStep(thread, _, stack, atBreakpoint) =>
      Pauses(s, thread, |stack|, atBreakpoint) ==> forall k :: k in s.cache ==> ThreadOf(k) != thread
    case Variables(reference) =>
      Target(s, reference).Some? ==>
        s.paused[ThreadOf(reference)].index + CountComplex(Kids(Target(s, reference).value, order)) < STRIDE
    case Disconnect => s.cache == map[]
    case _ => true
  }

  // ----- proofs -----

  lemma KidLeads(v: Json, order: KeyOrder, i: nat)
    requires Enumerates(order) && i < |Kids(v, order)|
    ensures var kid := Kids(v, order)[i]; '/' !in kid.token && Child(v, kid.token) == Some(kid.value)
  {
    if v.Object? {
      TokenRoundTrip(order(v.fields)[i]);
    } else {
      IndexToken(i);
    }
  }

  /** Kids of `v` are led to by their tokens. */
  predicate Led(v: Json, kids: seq<Kid>) {
    forall i :: 0 <= i < |kids| ==> '/' !in kids[i].token && Child(v, kids[i].token) == Some(kids[i].value)
  }

  lemma {:induction false} ShowAllCounts(s: Session, thread: int, parent: string, kids: seq<Kid>)
    requires thread in s.paused
    ensures var t := ShowAll(s, thread, parent, kids).0;
            t.stepping == s.stepping
            && t.paused == s.paused[thread := s.paused[thread].(index := s.paused[thread].index + CountComplex(kids))]
  {
    if kids != [] { ShowAllCounts(s, thread, parent, kids[..|kids| - 1]); }
  }

  /** A shown child keeps its name; a complex one gets its reference of the thread, which now stands for it. */
  predicate ShownAt(s: Session, t: Session, thread: int, kids: seq<Kid>, i: nat, line: Variable)
    requires thread in s.paused && i < |kids|
  {
    && line.name == kids[i].name && line.preview == Preview(kids[i].value)
    && (!Complex(kids[i].value) ==> line.reference == 0)
    && (Complex(kids[i].value) ==>
          && line.reference == RefOf(thread, s.paused[thread].index + CountComplex(kids[..i + 1]))
          && line.reference in t.cache && t.cache[line.reference] == kids[i].value)
  }

  predicate Shown(s: Session, t: Session, thread: int, kids: seq<Kid>, lines: seq<Variable>)
    requires thread in s.paused
  {
    |lines| == |kids| && forall i :: 0 <= i < |kids| ==> ShownAt(s, t, thread, kids, i, lines[i])
  }

  lemma ShowSound(s: Session, thread: int, parent: string, kid: Kid)
    requires Sound(s) && thread in s.paused && (Complex(kid.value) ==> s.paused[thread].index + 1 < STRIDE)
    requires Resolve(s.paused[thread].state, parent).Some? && '/' !in kid.token
    requires Child(Resolve(s.paused[thread].state, parent).value, kid.token) == Some(kid.value)
    ensures var t := Show(s, thread, parent, kid).0;
            && Sound(t)
            && (forall r :: r in s.cache ==> r in t.cache && t.cache[r] == s.cache[r])
            && (forall r :: r in s.pointers ==> r in t.pointers && (t.pointers[r] == s.pointers[r]))
  {
    hide Resolve, Child;
    if Complex(kid.value) {
      var index := s.paused[thread].index + 1;
      var reference := RefOf(thread, index);
      RefParts(thread, index);
      ResolveExtended(s.paused[thread].state, parent, kid.token);
      assert reference !in s.cache;
      var t := Show(s, thread, parent, kid).0;
      forall r | r in t.cache ensures Resolves(t, r) {
        if r != reference { assert Resolves(s, r); }
      }
    }
  }

  lemma {:induction false} ShowAllSound(s: Session, thread: int, parent: string, v: Json, kids: seq<Kid>)
    requires Sound(s) && thread in s.paused && Resolve(s.paused[thread].state, parent) == Some(v) && Led(v, kids)
    requires s.paused[thread].index + CountComplex(kids) < STRIDE
    ensures var t := ShowAll(s, thread, parent, kids).0;
            && Sound(t)
            && (forall r :: r in s.cache ==> r in t.cache && t.cache[r] == s.cache[r])
            && (forall r :: r in s.pointers ==> r in t.pointers && t.pointers[r] == s.pointers[r])
  {
    hide Sound, Resolve, Child, Show;
    if kids != [] {
      var n := |kids| - 1;
      ShowAllSound(s, thread, parent, v, kids[..n]);
      ShowAllCounts(s, thread, parent, kids[..n]);
      ShowSound(ShowAll(s, thread, parent, kids[..n]).0, thread, parent, kids[n]);
    }
  }

  lemma {:induction false} ShowAllShown(s: Session, thread: int, parent: string, kids: seq<Kid>)
    requires thread in s.paused
    ensures Shown(s, ShowAll(s, thread, parent, kids).0, thread, kids, ShowAll(s, thread, parent, kids).1)
  {
    if kids != [] {
      var n := |kids| - 1;
      ShowAllShown(s, thread, parent, kids[..n]);
      ShowAllCounts(s, thread, parent, kids[..n]);
      var (before, shown) := ShowAll(s, thread, parent, kids[..n]);
      var (t, line) := Show(before, thread, parent, kids[n]);
      assert ShowAll(s, thread, parent, kids) == (t, shown + [line]);
      hide ShowAll;
      forall i | 0 <= i < n ensures ShownAt(s, t, thread, kids, i, shown[i]) {
        assert ShownAt(s, before, thread, kids[..n], i, shown[i]);
        ShownLater(s, before, thread, parent, kids, i, shown[i]);
      }
      ShownLast(s, before, thread, parent, kids);
      hide ShownAt, Show;
    }
  }

  lemma ShownLater(s: Session, before: Session, thread: int, parent: string, kids: seq<Kid>, i: nat, line: Variable)
    requires thread in s.paused && thread in before.paused && i < |kids| - 1
    requires before.paused[thread].index == s.paused[thread].index + CountComplex(kids[..|kids| - 1])
    requires ShownAt(s, before, thread, kids[..|kids| - 1], i, line)
    ensures ShownAt(s, Show(before, thread, parent, kids[|kids| - 1]).0, thread, kids, i, line)
  {
    var n := |kids| - 1;
    CountMonotone(kids, i + 1, n);
    assert kids[..n][..i + 1] == kids[..i + 1] && kids[..n][i] == kids[i];
    hide CountComplex, Preview;
  }

  lemma ShownLast(s: Session, before: Session, thread: int, parent: string, kids: seq<Kid>)
    requires thread in s.paused && thread in before.paused && kids != []
    requires before.paused[thread].index == s.paused[thread].index + CountComplex(kids[..|kids| - 1])
    ensures var (t, line) := Show(before, thread, parent, kids[|kids| - 1]);
            ShownAt(s, t, thread, kids, |kids| - 1, line)
  {
    assert kids[..|kids|] == kids;
    hide Preview;
  }

  /** A thread's next references are new. */
  lemma NewRef(s: Session, thread: int, index: nat)
    requires Sound(s) && thread in s.paused && s.paused[thread].index < index < STRIDE
    ensures RefOf(thread, index) !in s.cache
  {
    hide Resolve;
    RefParts(thread, index);
    assert RefOf(thread, index) in s.cache ==> Resolves(s, RefOf(thread, index));
  }

  /** References of one answer never coincide. */
  lemma {:induction false} CountGrows(kids: seq<Kid>, i: nat, j: nat)
    requires i < j < |kids| && Complex(kids[j].value)
    ensures CountComplex(kids[..i + 1]) < CountComplex(kids[..j + 1])
    decreases j
  {
    assert kids[..j + 1][..j] == kids[..j];
    if i + 1 < j {
      CountMonotone(kids, i + 1, j);
    }
  }

  lemma CountOwn(kids: seq<Kid>, i: nat)
    requires i < |kids| && Complex(kids[i].value)
    ensures CountComplex(kids[..i + 1]) > 0
  {
    assert kids[..i + 1][i] == kids[i];
  }

  lemma {:induction false} CountMonotone(kids: seq<Kid>, i: nat, j: nat)
    requires i <= j <= |kids|
    ensures CountComplex(kids[..i]) <= CountComplex(kids[..j])
    decreases j
  {
    if i < j {
      assert kids[..j][..j - 1] == kids[..j - 1];
      CountMonotone(kids, i, j - 1);
    }
  }

  /** References of an answer are new, and no two lines share one. */
  predicate NewRefs(s: Session, lines: seq<Variable>) {
    && (forall i :: 0 <= i < |lines| && lines[i].reference != 0 ==> lines[i].reference !in s.cache)
    && (forall i, j :: 0 <= i < j < |lines| && lines[j].reference != 0 ==> lines[i].reference != lines[j].reference)
  }

  /** What was cached or pointed to before still is. */
  predicate Keeps(s: Session, t: Session) {
    && (forall r :: r in s.cache ==> r in t.cache && t.cache[r] == s.cache[r])
    && (forall r :: r in s.pointers ==> r in t.pointers && t.pointers[r] == s.pointers[r])
  }

  lemma AnswersNew(s: Session, t: Session, thread: int, kids: seq<Kid>, lines: seq<Variable>)
    requires Sound(s) && thread in s.paused && s.paused[thread].index + CountComplex(kids) < STRIDE
    requires Shown(s, t, thread, kids, lines)
    ensures NewRefs(s, lines)
  {
    assert s.paused[thread].index >= 1;
    hide Sound, Preview;
    forall i | 0 <= i < |lines| && lines[i].reference != 0 ensures lines[i].reference !in s.cache {
      assert ShownAt(s, t, thread, kids, i, lines[i]);
      CountMonotone(kids, i + 1, |kids|);
      assert kids[..|kids|] == kids;
      CountOwn(kids, i);
      NewRef(s, thread, s.paused[thread].index + CountComplex(kids[..i + 1]));
    }
    forall i, j | 0 <= i < j < |lines| && lines[j].reference != 0 ensures lines[i].reference != lines[j].reference {
      assert ShownAt(s, t, thread, kids, i, lines[i]) && ShownAt(s, t, thread, kids, j, lines[j]);
      CountGrows(kids, i, j);
      hide CountComplex;
    }
  }

  /** A variables request shows exactly the children of the value its reference stands for, each complex one behind a
      reference no other line or earlier answer has, and leaves every earlier reference as it was. */
  lemma VariablesShow(s: Session, reference: int, order: KeyOrder)
    requires Sound(s) && Enumerates(order) && Orderly(s, Variables(reference), order)
    requires Target(s, reference).Some? && Complex(Target(s, reference).value)
    ensures var thread, v := ThreadOf(reference), Target(s, reference).value;
            var (t, lines) := Expand(s, thread, PointerOf(s, reference), v, order);
            && Resolve(s.paused[thread].state, PointerOf(s, reference)) == Some(v)
            && Sound(t) && Shown(s, t, thread, Kids(v, order), lines) && NewRefs(s, lines) && Keeps(s, t)
  {
    var thread, v := ThreadOf(reference), Target(s, reference).value;
    TargetResolves(s, reference);
    var kids := Kids(v, order);
    forall i | 0 <= i < |kids| ensures '/' !in kids[i].token && Child(v, kids[i].token) == Some(kids[i].value) {
      KidLeads(v, order, i);
    }
    hide Kids, Sound, Resolve, Child, ShowAll, Shown, NewRefs, ThreadOf;
    ShowAllSound(s, thread, PointerOf(s, reference), v, kids);
    ShowAllShown(s, thread, PointerOf(s, reference), kids);
    var (t, lines) := ShowAll(s, thread, PointerOf(s, reference), kids);
    AnswersNew(s, t, thread, kids, lines);
  }

  lemma TargetResolves(s: Session, reference: int)
    requires Sound(s) && Target(s, reference).Some?
    ensures Resolve(s.paused[ThreadOf(reference)].state, PointerOf(s, reference)) == Target(s, reference)
  {
    if OffsetOf(reference) == 1 {
      assert reference in s.cache ==> Resolves(s, reference);
    } else {
      assert Resolves(s, reference);
    }
  }

  /** Resuming a thread forgets its references and leaves every other thread's references leading where they led. */
  lemma ResumeIsolates(s: Session, thread: int, mode: Option<SteppingMode>, reference: int)
    requires Sound(s) && reference in s.cache
    ensures var t := Resume(s, thread, mode);
            && (ThreadOf(reference) == thread ==> reference !in t.cache && reference !in t.pointers)
            && (ThreadOf(reference) != thread ==>
                  reference in t.cache && t.cache[reference] == s.cache[reference] && Resolves(t, reference))
  {
    assert Resolves(s, reference);
    Owned(thread, reference);
  }

  lemma Owned(thread: int, reference: int)
    requires ThreadOf(reference) >= 0 && OffsetOf(reference) >= 0
    ensures OwnRef(thread, reference) <==> ThreadOf(reference) == thread
  {
    assert 0 <= OffsetOf(reference) < STRIDE;
    assert reference == ThreadOf(reference) * STRIDE + OffsetOf(reference);
  }

  lemma ResumeSound(s: Session, thread: int, mode: Option<SteppingMode>)
    requires Sound(s)
    ensures Sound(Resume(s, thread, mode))
  {
    var t := Resume(s, thread, mode);
    forall r | r in t.cache ensures Resolves(t, r) {
      ResumeIsolates(s, thread, mode, r);
    }
    forall r | r in t.pointers && r !in t.cache ensures t.pointers[r] == "" && OffsetOf(r) <= 1 {
      if r in s.cache { ResumeIsolates(s, thread, mode, r); }
    }
  }

  lemma PauseSound(s: Session, thread: nat, state: Json, stack: seq<string>, order: KeyOrder)
    requires Sound(s)
    ensures var t := Apply(s, BeforeStep(thread, state, stack, true), order);
            Sound(t) <==> forall k :: k in s.cache ==> ThreadOf(k) != thread
  {
    var t := Apply(s, BeforeStep(thread, state, stack, true), order);
    hide Resolve;
    if forall k :: k in s.cache ==> ThreadOf(k) != thread {
      forall r | r in t.cache ensures Resolves(t, r) {
        assert Resolves(s, r);
      }
    }
    if Sound(t) {
      forall k | k in s.cache ensures ThreadOf(k) != thread {
        assert Resolves(t, k);
      }
    }
  }

  lemma DisconnectSound(s: Session)
    requires Sound(s)
    ensures Sound(s.(paused := map[])) <==> s.cache == map[]
  {
    var t := s.(paused := map[]);
    if Sound(t) {
      forall k ensures k !in s.cache {
        assert k in s.cache ==> Resolves(t, k);
      }
    }
  }

  lemma ScopesSound(s: Session, frame: int)
    requires Sound(s)
    ensures Sound(s.(pointers := s.pointers[RootRef(frame) := ""]))
  {
    var root := RootRef(frame);
    hide Resolve;
    assert OffsetOf(root) <= 1;
    assert root in s.cache ==> Resolves(s, root);
    var t := s.(pointers := s.pointers[root := ""]);
    forall r | r in t.cache ensures Resolves(t, r) { assert Resolves(s, r); }
  }

  lemma VariablesSound(s: Session, reference: int, order: KeyOrder)
    requires Sound(s) && Enumerates(order)
    ensures Sound(Apply(s, Variables(reference), order)) <==> Orderly(s, Variables(reference), order)
  {
    var v := Target(s, reference);
    if v.Some? {
      var thread := ThreadOf(reference);
      ShowAllCounts(s, thread, PointerOf(s, reference), Kids(v.value, order));
      if Orderly(s, Variables(reference), order) {
        if Complex(v.value) { VariablesShow(s, reference, order); }
      } else {
        assert Complex(v.value);
        var t := Apply(s, Variables(reference), order);
        assert thread in t.paused && t.paused[thread].index >= STRIDE;
      }
    }
  }

  /** A request keeps the server's bookkeeping sound exactly when it is orderly. What that means for a client is the
      subject of `Sessions`. */
  lemma RequestSound(s: Session, r: Request, order: KeyOrder)
    requires Sound(s) && Enumerates(order)
    ensures Sound(Apply(s, r, order)) <==> Orderly(s, r, order)
  {
    hide Sound;
    match r
    case BeforeStep(thread, state, stack, atBreakpoint) => PauseSound(s, thread, state, stack, order);
    case Scopes(frame) => ScopesSound(s, frame);
    case Variables(reference) => VariablesSound(s, reference, order);
    case Continue(id) => ResumeSound(s, id, None);
    case Next(id) => ResumeSound(s, id, Some(StepOver(Depth(s, id))));
    case StepIn(id) => ResumeSound(s, id, Some(StepInto));
    case StepOutOf(id) => ResumeSound(s, id, Some(StepOut(Depth(s, id))));
    case Disconnect => DisconnectSound(s);
  }

  predicate SoundThroughout(rs: seq<Request>, order: KeyOrder) {
    forall n :: 0 <= n <= |rs| ==> Sound(Run(rs[..n], order))
  }

  predicate OrderlyThroughout(rs: seq<Request>, order: KeyOrder) {
    forall n :: 0 <= n < |rs| ==> Orderly(Run(rs[..n], order), rs[n], order)
  }

  lemma ThroughoutSnoc(rs: seq<Request>, order: KeyOrder)
    requires rs != []
    ensures var before := rs[..|rs| - 1];
            && (SoundThroughout(rs, order) <==> SoundThroughout(before, order) && Sound(Run(rs, order)))
            && (OrderlyThroughout(rs, order) <==>
                  OrderlyThroughout(before, order) && Orderly(Run(before, order), rs[|rs| - 1], order))
  {
    hide Sound, Orderly, Run;
    var before := rs[..|rs| - 1];
    assert forall n :: 0 <= n <= |before| ==> before[..n] == rs[..n];
    assert rs[..|rs|] == rs;
  }

  /** Over a whole session: the bookkeeping is sound throughout exactly when every request was orderly. */
  lemma {:induction false} SessionSound(rs: seq<Request>, order: KeyOrder)
    requires Enumerates(order)
    ensures SoundThroughout(rs, order) <==> OrderlyThroughout(rs, order)
  {
    if rs == [] {
      StartSound();
    } else {
      var before := rs[..|rs| - 1];
      SessionSound(before, order);
      ThroughoutSnoc(rs, order);
      if SoundThroughout(before, order) { SoundAtEnd(before, order); }
      hide Sound, Orderly, SoundThroughout, OrderlyThroughout, Apply;
      if Sound(Run(before, order)) { RequestSound(Run(before, order), rs[|rs| - 1], order); }
    }
  }

  lemma SoundAtEnd(rs: seq<Request>, order: KeyOrder)
    requires SoundThroughout(rs, order)
    ensures Sound(Run(rs, order))
  {
    assert rs[..|rs|] == rs;
  }

  lemma StartSound()
    ensures Sound(START)
  {
  }
}

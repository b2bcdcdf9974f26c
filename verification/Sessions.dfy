/** What a debugging client relies on over a session: the references it was handed keep standing for their values until
    their thread resumes, answers speak of the paused state, and no live reference is handed out again. */
module Sessions {
  import opened Base
  import opened JsonValues
  import opened JsonPointers
  import opened Debugger

  // ----- the client's side -----

  /** The thread for which a reference was handed out, and the value it stood for. */
  datatype Live = Live(thread: int, value: Json)

  type Book = map<int, Live>

  /** The client notes down the references of an answer. */
  function Note(book: Book, thread: int, kids: seq<Kid>, lines: seq<Variable>): Book
    requires |lines| == |kids|
  {
    if kids == [] then book
    else
      var n := |kids| - 1;
      var before := Note(book, thread, kids[..n], lines[..n]);
      if lines[n].reference == 0 then before else before[lines[n].reference := Live(thread, kids[n].value)]
  }

  lemma {:induction false} ShowAllLength(s: Session, thread: int, parent: string, kids: seq<Kid>)
    requires thread in s.paused
    ensures |ShowAll(s, thread, parent, kids).1| == |kids|
  {
    if kids != [] { ShowAllLength(s, thread, parent, kids[..|kids| - 1]); }
  }

  /** References of a thread are forgotten when the client resumes it. */
  function Forget(book: Book, thread: int): Book { map k | k in book && book[k].thread != thread :: book[k] }

  function Noted(s: Session, book: Book, r: Request, order: KeyOrder): Book {
    match r
    case Variables(reference) =>
      (match Target(s, reference)
       case None => book
       case Some(v) =>
         var thread, kids := ThreadOf(reference), Kids(v, order);
         ShowAllLength(s, thread, PointerOf(s, reference), kids);
         Note(book, thread, kids, ShowAll(s, thread, PointerOf(s, reference), kids).1))
    case Continue(id) => Forget(book, id)
    case Next(id) => Forget(book, id)
    case StepIn(id) => Forget(book, id)
    case StepOutOf(id) => Forget(book, id)
    case Disconnect => map[]
    case _ => book
  }

  /** Server and client after a session. */
  function BookOf(rs: seq<Request>, order: KeyOrder): Book {
    if rs == [] then map[]
    else Noted(Run(rs[..|rs| - 1], order), BookOf(rs[..|rs| - 1], order), rs[|rs| - 1], order)
  }

  /** Every live reference still stands for the value it was handed out for, and that value is where its pointer
      leads in the paused state of the thread. */
  predicate Kept(s: Session, book: Book) {
    forall k :: k in book ==>
      && Target(s, k) == Some(book[k].value) && book[k].thread in s.paused
      && Resolve(s.paused[book[k].thread].state, PointerOf(s, k)) == Some(book[k].value)
  }

  /** An answer speaks of what is in the paused state, and hands out references that are not live. */
  predicate Honest(s: Session, book: Book, r: Request, order: KeyOrder) {
    r.Variables? && Target(s, r.reference).Some? ==>
      var thread, v := ThreadOf(r.reference), Target(s, r.reference).value;
      var lines := Expand(s, thread, PointerOf(s, r.reference), v, order).1;
      && Resolve(s.paused[thread].state, PointerOf(s, r.reference)) == Some(v)
      && (forall i :: 0 <= i < |lines| && lines[i].reference != 0 ==> lines[i].reference !in book)
  }

  /** The client is served well at every moment of the session. */
  predicate Served(rs: seq<Request>, order: KeyOrder) {
    && (forall n :: 0 <= n <= |rs| ==> Kept(Run(rs[..n], order), BookOf(rs[..n], order)))
    && (forall n :: 0 <= n < |rs| ==> Honest(Run(rs[..n], order), BookOf(rs[..n], order), rs[n], order))
  }

  // ----- orderly sessions serve the client -----

  /** The client's book is the server's cache. */
  predicate Matches(s: Session, book: Book) {
    && book.Keys == s.cache.Keys
    && forall k :: k in book ==> book[k] == Live(ThreadOf(k), s.cache[k])
  }

  lemma MatchesKept(s: Session, book: Book)
    requires Sound(s) && Matches(s, book)
    ensures Kept(s, book)
  {
    forall k | k in book ensures Target(s, k) == Some(book[k].value) { assert Resolves(s, k); }
  }

  lemma MatchesHonest(s: Session, book: Book, r: Request, order: KeyOrder)
    requires Sound(s) && Matches(s, book) && Enumerates(order) && Orderly(s, r, order)
    ensures Honest(s, book, r, order)
  {
    hide Sound, Kids, Resolve;
    if r.Variables? && Target(s, r.reference).Some? {
      TargetResolves(s, r.reference);
      if Complex(Target(s, r.reference).value) { VariablesShow(s, r.reference, order); }
    }
  }

  lemma {:induction false} NoteMatches(s: Session, book: Book, thread: int, parent: string, kids: seq<Kid>)
    requires Matches(s, book) && thread in s.paused && thread >= 0 && s.paused[thread].index >= 1
    requires s.paused[thread].index + CountComplex(kids) < STRIDE
    ensures |ShowAll(s, thread, parent, kids).1| == |kids|
    ensures Matches(ShowAll(s, thread, parent, kids).0, Note(book, thread, kids, ShowAll(s, thread, parent, kids).1))
  {
    if kids != [] {
      var n := |kids| - 1;
      NoteMatches(s, book, thread, parent, kids[..n]);
      ShowAllCounts(s, thread, parent, kids[..n]);
      var (before, lines) := ShowAll(s, thread, parent, kids[..n]);
      assert ShowAll(s, thread, parent, kids).1[..n] == lines;
      ShowMatches(before, Note(book, thread, kids[..n], lines), thread, parent, kids[n]);
      hide Matches, Show, RefOf;
    }
  }

  lemma ShowMatches(s: Session, book: Book, thread: int, parent: string, kid: Kid)
    requires Matches(s, book) && thread in s.paused && thread >= 0 && s.paused[thread].index >= 1
    requires Complex(kid.value) ==> s.paused[thread].index + 1 < STRIDE
    ensures var (t, line) := Show(s, thread, parent, kid);
            Matches(t, if line.reference == 0 then book else book[line.reference := Live(thread, kid.value)])
  {
    hide Preview;
    if Complex(kid.value) { RefParts(thread, s.paused[thread].index + 1); }
  }

  lemma ForgetMatches(s: Session, book: Book, thread: int, mode: Option<SteppingMode>)
    requires Sound(s) && Matches(s, book)
    ensures Matches(Resume(s, thread, mode), Forget(book, thread))
  {
    hide Resolve;
    forall k | k in s.cache ensures OwnRef(thread, k) <==> ThreadOf(k) == thread {
      assert Resolves(s, k);
      Owned(thread, k);
    }
    hide OwnRef;
  }

  lemma NotedMatches(s: Session, book: Book, r: Request, order: KeyOrder)
    requires Sound(s) && Matches(s, book) && Orderly(s, r, order)
    ensures Matches(Apply(s, r, order), Noted(s, book, r, order))
  {
    match r
    case Variables(reference) =>
      if Target(s, reference).Some? {
        assert s.paused[ThreadOf(reference)].index >= 1;
        NoteMatches(s, book, ThreadOf(reference), PointerOf(s, reference), Kids(Target(s, reference).value, order));
        hide ShowAll, Sound;
      }
    case Continue(id) => ForgetMatches(s, book, id, None);
    case Next(id) => ForgetMatches(s, book, id, Some(StepOver(Depth(s, id))));
    case StepIn(id) => ForgetMatches(s, book, id, Some(StepInto));
    case StepOutOf(id) => ForgetMatches(s, book, id, Some(StepOut(Depth(s, id))));
    case _ =>
  }

  lemma {:induction false} OrderlyMatches(rs: seq<Request>, order: KeyOrder)
    requires Enumerates(order) && OrderlyThroughout(rs, order)
    ensures Sound(Run(rs, order)) && Matches(Run(rs, order), BookOf(rs, order))
  {
    if rs == [] {
      StartSound();
    } else {
      hide Sound, Orderly, Matches, Apply, Noted;
      ThroughoutSnoc(rs, order);
      var before := rs[..|rs| - 1];
      OrderlyMatches(before, order);
      RequestSound(Run(before, order), rs[|rs| - 1], order);
      NotedMatches(Run(before, order), BookOf(before, order), rs[|rs| - 1], order);
    }
  }

  lemma OrderlyPrefix(rs: seq<Request>, order: KeyOrder, n: nat)
    requires OrderlyThroughout(rs, order) && n <= |rs|
    ensures OrderlyThroughout(rs[..n], order)
  {
    hide Orderly, Run;
    forall i | 0 <= i < n ensures Orderly(Run(rs[..n][..i], order), rs[..n][i], order) {
      assert rs[..n][..i] == rs[..i];
    }
  }

  /** How a connection ends: the client disconnects, and from then on only the program's own steps reach the server. */
  predicate Ending(tail: seq<Request>) {
    tail == [] || (tail[0].Disconnect? && forall i :: 1 <= i < |tail| ==> tail[i].BeforeStep?)
  }

  /** After the disconnect the client holds nothing. */
  lemma {:induction false} NothingHeld(rs: seq<Request>, tail: seq<Request>, order: KeyOrder)
    requires Ending(tail) && tail != []
    ensures BookOf(rs + tail, order) == map[]
    decreases |tail|
  {
    var all, n := rs + tail, |tail| - 1;
    assert all[|all| - 1] == tail[n];
    assert all[..|all| - 1] == rs + tail[..n];
    hide Run;
    if n > 0 { NothingHeld(rs, tail[..n], order); }
  }

  lemma OrderlyMoment(rs: seq<Request>, order: KeyOrder, n: nat)
    requires Enumerates(order) && OrderlyThroughout(rs, order) && n <= |rs|
    ensures Kept(Run(rs[..n], order), BookOf(rs[..n], order))
    ensures n < |rs| ==> Honest(Run(rs[..n], order), BookOf(rs[..n], order), rs[n], order)
  {
    hide Sound, Matches, Run, BookOf, Kept, Honest, OrderlyThroughout;
    OrderlyPrefix(rs, order, n);
    OrderlyMatches(rs[..n], order);
    MatchesKept(Run(rs[..n], order), BookOf(rs[..n], order));
    if n < |rs| {
      OrderlyAt(rs, order, n);
      MatchesHonest(Run(rs[..n], order), BookOf(rs[..n], order), rs[n], order);
    }
  }

  /** In an orderly session, however it ends, every reference the client holds stands for its value in the paused state
      of its thread, every answer speaks of that state, and no live reference is handed out twice. */
  lemma OrderlyServed(rs: seq<Request>, tail: seq<Request>, order: KeyOrder)
    requires Enumerates(order) && OrderlyThroughout(rs, order) && Ending(tail)
    ensures Served(rs + tail, order)
  {
    hide Run, BookOf, OrderlyThroughout;
    var all := rs + tail;
    forall n | 0 <= n <= |all| ensures Kept(Run(all[..n], order), BookOf(all[..n], order)) {
      if n <= |rs| {
        assert all[..n] == rs[..n];
        OrderlyMoment(rs, order, n);
      } else {
        assert all[..n] == rs + tail[..n - |rs|];
        NothingHeld(rs, tail[..n - |rs|], order);
      }
    }
    forall n | 0 <= n < |all| ensures Honest(Run(all[..n], order), BookOf(all[..n], order), all[n], order) {
      if n < |rs| {
        assert all[..n] == rs[..n];
        OrderlyMoment(rs, order, n);
      } else {
        assert all[n] == tail[n - |rs|];
      }
    }
  }

  lemma OrderlyAt(rs: seq<Request>, order: KeyOrder, n: nat)
    requires OrderlyThroughout(rs, order) && n < |rs|
    ensures Orderly(Run(rs[..n], order), rs[n], order)
  {
  }

  // ----- disorder does harm -----

  /** Every index the counter has passed is cached, under a real pointer. */
  predicate Filled(s: Session) {
    && (forall k :: k in s.cache ==> Complex(s.cache[k]) && PointerOf(s, k) != "")
    && (forall t, i :: t in s.paused && 2 <= i <= s.paused[t].index ==> RefOf(t, i) in s.cache)
  }

  lemma {:induction false} ShowAllFilled(s: Session, thread: int, parent: string, kids: seq<Kid>)
    requires Filled(s) && thread in s.paused
    ensures Filled(ShowAll(s, thread, parent, kids).0)
  {
    if kids != [] {
      ShowAllFilled(s, thread, parent, kids[..|kids| - 1]);
      hide ShowAll;
    }
  }

  lemma ResumeFilled(s: Session, thread: int, mode: Option<SteppingMode>)
    requires Sound(s) && Filled(s)
    ensures Filled(Resume(s, thread, mode))
  {
    hide Resolve;
    var t := Resume(s, thread, mode);
    forall u, i | u in t.paused && 2 <= i <= t.paused[u].index ensures RefOf(u, i) in t.cache {
      assert RefOf(u, i) in s.cache;
      RefParts(u, i);
      Owned(thread, RefOf(u, i));
    }
  }

  lemma RequestFilled(s: Session, r: Request, order: KeyOrder)
    requires Sound(s) && Filled(s) && Orderly(s, r, order)
    ensures Filled(Apply(s, r, order))
  {
    match r
    case Variables(reference) =>
      if Target(s, reference).Some? {
        ShowAllFilled(s, ThreadOf(reference), PointerOf(s, reference), Kids(Target(s, reference).value, order));
      }
    case Scopes(frame) =>
      hide Resolve;
      assert OffsetOf(RootRef(frame)) <= 1;
      assert RootRef(frame) in s.cache ==> Resolves(s, RootRef(frame));
    case Continue(id) => ResumeFilled(s, id, None);
    case Next(id) => ResumeFilled(s, id, Some(StepOver(Depth(s, id))));
    case StepIn(id) => ResumeFilled(s, id, Some(StepInto));
    case StepOutOf(id) => ResumeFilled(s, id, Some(StepOut(Depth(s, id))));
    case _ =>
  }

  lemma {:induction false} OrderlyFilled(rs: seq<Request>, order: KeyOrder)
    requires Enumerates(order) && OrderlyThroughout(rs, order)
    ensures Filled(Run(rs, order))
  {
    if rs != [] {
      hide Sound, Orderly, Matches, Filled, Apply, Noted;
      ThroughoutSnoc(rs, order);
      var before := rs[..|rs| - 1];
      OrderlyFilled(before, order);
      OrderlyMatches(before, order);
      RequestFilled(Run(before, order), rs[|rs| - 1], order);
    }
  }

  /** A pointer to an object or array passes through a complex child of the root, unless it is the root itself. */
  lemma ComplexChild(v: Json, pointer: string) returns (token: string)
    requires pointer != "" && Resolve(v, pointer).Some? && Complex(Resolve(v, pointer).value)
    ensures Child(v, token).Some? && Complex(Child(v, token).value)
  {
    hide Child;
    var n := TokenLength(pointer[1..]);
    token := pointer[1..][..n];
    var child := Child(v, token).value;
    if pointer[1..][n..] != "" { LeadsOnlyFromComplex(child, pointer[1..][n..]); }
  }

  lemma LeadsOnlyFromComplex(v: Json, pointer: string)
    requires pointer != "" && Resolve(v, pointer).Some?
    ensures Complex(v)
  {
  }

  /** Every child is shown. */
  lemma KidOf(v: Json, token: string, order: KeyOrder) returns (i: nat)
    requires Enumerates(order) && Child(v, token).Some?
    ensures i < |Kids(v, order)| && Kids(v, order)[i].value == Child(v, token).value
  {
    if v.Object? {
      var keys := order(v.fields);
      AllListed(keys, v.fields.Keys);
      assert |v.fields| == |v.fields.Keys|;
      i :| 0 <= i < |keys| && keys[i] == Unescape(token);
    } else {
      i := ArrayIndex(Unescape(token)).value;
    }
  }

  /** Distinct members, as many as the set has, are all of it. */
  lemma {:induction false} AllListed<T>(s: seq<T>, all: set<T>)
    requires |s| == |all| && (forall i :: 0 <= i < |s| ==> s[i] in all)
    requires forall i, j :: 0 <= i < j < |s| ==> s[i] != s[j]
    ensures forall x :: x in all ==> x in s
    decreases |s|
  {
    if s != [] {
      var last := s[|s| - 1];
      AllListed(s[..|s| - 1], all - {last});
      forall x | x in all ensures x in s {
        if x != last { assert x in s[..|s| - 1]; }
      }
    }
  }

  /** The count passes every number up to its end, at a complex child. */
  lemma {:induction false} CountHits(kids: seq<Kid>, c: nat) returns (j: nat)
    requires 1 <= c <= CountComplex(kids)
    ensures j < |kids| && Complex(kids[j].value) && CountComplex(kids[..j + 1]) == c
  {
    var n := |kids| - 1;
    if c == CountComplex(kids) && Complex(kids[n].value) {
      j := n;
      assert kids[..n + 1] == kids;
    } else {
      j := CountHits(kids[..n], c);
      assert kids[..n][..j + 1] == kids[..j + 1] && kids[..n][j] == kids[j];
    }
  }

  lemma {:induction false} HasComplex(kids: seq<Kid>, i: nat)
    requires i < |kids| && Complex(kids[i].value)
    ensures CountComplex(kids) >= 1
  {
    CountOwn(kids, i);
    CountMonotone(kids, i + 1, |kids|);
    assert kids[..|kids|] == kids;
  }

  /** A session is not served if at some moment a live reference is not kept or an answer is not honest. */
  lemma Unserved(rs: seq<Request>, order: KeyOrder, n: nat)
    requires n <= |rs|
    requires !Kept(Run(rs[..n], order), BookOf(rs[..n], order))
          || (n < |rs| && !Honest(Run(rs[..n], order), BookOf(rs[..n], order), rs[n], order))
    ensures !Served(rs, order)
  {
  }

  /** Moving on by one request. */
  lemma OneMore(rs: seq<Request>, r: Request, order: KeyOrder)
    ensures Run(rs + [r], order) == Apply(Run(rs, order), r, order)
    ensures BookOf(rs + [r], order) == Noted(Run(rs, order), BookOf(rs, order), r, order)
  {
    assert (rs + [r])[..|rs|] == rs;
    hide Apply, Noted;
  }

  /** After a second pause of a thread with live references, either one of them no longer leads to its value, or
      the next look at the thread's variables hands one out again. */
  lemma SecondPauseHarms(s: Session, book: Book, r: Request, order: KeyOrder)
    requires r.BeforeStep? && !Orderly(s, r, order)
    requires Enumerates(order) && Sound(s) && Filled(s) && Matches(s, book)
    ensures var t := Apply(s, r, order);
            !Kept(t, book) || !Honest(t, book, Variables(RefOf(r.thread, 1)), order)
  {
    hide Resolve, Kids, Child;
    var t := Apply(s, r, order);
    var k :| k in s.cache && ThreadOf(k) == r.thread;
    if Kept(t, book) {
      assert Resolves(s, k);
      var root := RefOf(r.thread, 1);
      RefParts(r.thread, 1);
      assert Target(t, root) == Some(r.state);
      var token := ComplexChild(r.state, PointerOf(t, k));
      var i := KidOf(r.state, token, order);
      var kids := Kids(r.state, order);
      HasComplex(kids, i);
      var j := CountHits(kids, 1);
      ShowAllShown(t, r.thread, PointerOf(t, root), kids);
      var lines := ShowAll(t, r.thread, PointerOf(t, root), kids).1;
      hide ShowAll, CountComplex;
      assert ShownAt(t, ShowAll(t, r.thread, PointerOf(t, root), kids).0, r.thread, kids, j, lines[j]);
      assert lines[j].reference == RefOf(r.thread, 2);
      assert RefOf(r.thread, 2) in s.cache;
      ChildOfComplex(r.state, token);
      assert Expand(t, r.thread, PointerOf(t, root), r.state, order).1 == lines;
    }
  }

  lemma ChildOfComplex(v: Json, token: string)
    requires Child(v, token).Some?
    ensures Complex(v)
  {
  }

  /** The book holds every reference of an answer. */
  lemma {:induction false} NoteHolds(s: Session, t: Session, book: Book, thread: int, kids: seq<Kid>,
                                     lines: seq<Variable>, j: nat)
    requires thread in s.paused && thread >= 0 && Shown(s, t, thread, kids, lines)
    requires j < |kids| && Complex(kids[j].value)
    ensures lines[j].reference in Note(book, thread, kids, lines)
    ensures Note(book, thread, kids, lines)[lines[j].reference] == Live(thread, kids[j].value)
    decreases |kids|
  {
    var n := |kids| - 1;
    assert ShownAt(s, t, thread, kids, j, lines[j]) && ShownAt(s, t, thread, kids, n, lines[n]);
    if j == n {
      CountOwn(kids, n);
    } else {
      ShownPrefix(s, t, thread, kids, lines);
      assert kids[..n][j] == kids[j];
      NoteHolds(s, t, book, thread, kids[..n], lines[..n], j);
      if Complex(kids[n].value) { CountGrows(kids, j, n); }
      hide Note, CountComplex, Preview;
    }
  }

  lemma ShownPrefix(s: Session, t: Session, thread: int, kids: seq<Kid>, lines: seq<Variable>)
    requires thread in s.paused && Shown(s, t, thread, kids, lines) && kids != []
    ensures Shown(s, t, thread, kids[..|kids| - 1], lines[..|kids| - 1])
  {
    hide Preview, CountComplex;
    var n := |kids| - 1;
    forall i | 0 <= i < n ensures ShownAt(s, t, thread, kids[..n], i, lines[..n][i]) {
      assert ShownAt(s, t, thread, kids, i, lines[i]);
      assert kids[..n][..i + 1] == kids[..i + 1] && kids[..n][i] == kids[i];
    }
  }

  /** An expansion past the stride hands out a reference of the next thread. */
  lemma OverflowHandsOut(s: Session, book: Book, r: Request, order: KeyOrder)
    requires r.Variables? && !Orderly(s, r, order) && Sound(s)
    ensures var noted, lost := Noted(s, book, r, order), RefOf(ThreadOf(r.reference), STRIDE);
            lost in noted && noted[lost].thread == ThreadOf(r.reference) && ThreadOf(r.reference) >= 0
  {
    hide Resolve, Kids;
    var thread, v := ThreadOf(r.reference), Target(s, r.reference).value;
    var parent, kids := PointerOf(s, r.reference), Kids(v, order);
    ShowAllLength(s, thread, parent, kids);
    ShowAllShown(s, thread, parent, kids);
    var (t, lines) := ShowAll(s, thread, parent, kids);
    var j := CountHits(kids, STRIDE - s.paused[thread].index);
    NoteHolds(s, t, book, thread, kids, lines, j);
    assert ShownAt(s, t, thread, kids, j, lines[j]);
    hide ShowAll, Note, CountComplex, Preview;
  }

  /** When the next thread resumes, that reference is lost although its own thread is still paused. */
  lemma LostOnResume(t: Session, noted: Book, thread: int, order: KeyOrder)
    requires var lost := RefOf(thread, STRIDE); lost in noted && noted[lost].thread == thread && thread >= 0
    ensures var r := Continue(thread + 1); !Kept(Apply(t, r, order), Noted(t, noted, r, order))
  {
    hide Resolve;
    var lost := RefOf(thread, STRIDE);
    assert ThreadOf(lost) == thread + 1 && OffsetOf(lost) == 0;
    assert OwnRef(thread + 1, lost);
    assert lost in Forget(noted, thread + 1);
    assert Target(Resume(t, thread + 1, None), lost) == None;
  }

  /** A second pause over live references, or an expansion past the stride, can be followed by one request after which
      the client has been served badly. */
  lemma DisorderHarms(rs: seq<Request>, r: Request, order: KeyOrder) returns (more: Request)
    requires Enumerates(order) && OrderlyThroughout(rs, order)
    requires !r.Disconnect? && !Orderly(Run(rs, order), r, order)
    ensures more.Variables? || more.Continue?
    ensures !Served(rs + [r] + [more], order)
  {
    hide Sound, Matches, Filled, Kept, Honest, Orderly, Apply, Noted, Run, BookOf, Served;
    OrderlyMatches(rs, order);
    OrderlyFilled(rs, order);
    var s, book := Run(rs, order), BookOf(rs, order);
    var after := rs + [r];
    OneMore(rs, r, order);
    var t, noted := Run(after, order), BookOf(after, order);
    PauseOrVariables(s, r, order);
    if r.BeforeStep? {
      SecondPauseHarms(s, book, r, order);
      more := Variables(RefOf(r.thread, 1));
      BookUnchanged(s, book, r, order);
      Unserved1(after, more, order);
    } else {
      OverflowHandsOut(s, book, r, order);
      LostOnResume(t, noted, ThreadOf(r.reference), order);
      more := Continue(ThreadOf(r.reference) + 1);
      OneMore(after, more, order);
      assert after + [more] == (after + [more])[..|after| + 1];
      Unserved(after + [more], order, |after| + 1);
    }
  }

  lemma PauseOrVariables(s: Session, r: Request, order: KeyOrder)
    requires !r.Disconnect? && !Orderly(s, r, order)
    ensures r.BeforeStep? || r.Variables?
  {
  }

  lemma BookUnchanged(s: Session, book: Book, r: Request, order: KeyOrder)
    requires r.BeforeStep?
    ensures Noted(s, book, r, order) == book
  {
  }

  lemma Unserved1(rs: seq<Request>, r: Request, order: KeyOrder)
    requires !Kept(Run(rs, order), BookOf(rs, order)) || !Honest(Run(rs, order), BookOf(rs, order), r, order)
    ensures !Served(rs + [r], order)
  {
    hide Kept, Honest, Run, BookOf, Served;
    assert (rs + [r])[..|rs|] == rs;
    Unserved(rs + [r], order, |rs|);
  }

  // ----- two runs under one thread id -----

  function Nested(text: string): Json { Object(map["a" := Object(map["b" := Number(text)])]) }

  lemma SingleKey(order: KeyOrder, key: string, v: Json)
    requires Enumerates(order)
    ensures order(map[key := v]) == [key]
  {
    var m := map[key := v];
    assert |m| == |m.Keys| == |{key}| == 1;
    assert order(m)[0] in m;
  }

  const INNER: Json := Object(map["b" := Number("1")])

  /** A client looks at the variables of a run that has no id of its own. */
  const LOOKED: Session := Session(map[0 := Paused(Nested("1"), [], 2)], map[], map[2 := INNER], map[2 := "/a"])

  lemma PauseThreadZero(order: KeyOrder)
    ensures Apply(START, BeforeStep(0, Nested("1"), [], true), order)
         == Session(map[0 := Paused(Nested("1"), [], 1)], map[], map[], map[])
  {
  }

  lemma KidsOfNested(order: KeyOrder)
    requires Enumerates(order)
    ensures Kids(Nested("1"), order) == [Kid("a", "a", INNER)]
  {
    SingleKey(order, "a", INNER);
    EscapePlain('a');
    hide Enumerates, Escape;
  }

  lemma ShowNested()
    ensures var s := Session(map[0 := Paused(Nested("1"), [], 1)], map[], map[], map[]);
            ShowAll(s, 0, "", [Kid("a", "a", INNER)]).0 == LOOKED
  {
    var kid := Kid("a", "a", INNER);
    var s := Session(map[0 := Paused(Nested("1"), [], 1)], map[], map[], map[]);
    assert "" + "/" + "a" == "/a";
    assert Show(s, 0, "", kid).0 == LOOKED;
    hide Show;
    assert [kid][..0] == [];
    assert ShowAll(s, 0, "", []).0 == s;
  }

  lemma LookAtThreadZero(order: KeyOrder)
    requires Enumerates(order)
    ensures Apply(Apply(START, BeforeStep(0, Nested("1"), [], true), order), Variables(1), order) == LOOKED
  {
    PauseThreadZero(order);
    KidsOfNested(order);
    ShowNested();
    hide Kids, Show, ShowAll, Enumerates;
    var s := Session(map[0 := Paused(Nested("1"), [], 1)], map[], map[], map[]);
    assert Target(s, 1) == Some(Nested("1"));
  }

  lemma EscapePlain(c: char)
    requires c != '~' && c != '/'
    ensures Escape([c]) == [c]
  {
    EscapeCons(c, "");
    assert [c] + "" == [c];
  }

  /** Runs without an id of their own pause as thread zero. When a second one pauses while the client looks at the
      first, expanding the reference the client holds shows a value that is not in the paused state. */
  lemma SharedThreadZero(order: KeyOrder)
    requires Enumerates(order)
    ensures var first, second := BeforeStep(0, Nested("1"), [], true), BeforeStep(0, Nested("2"), [], true);
            var t := Apply(Apply(Apply(START, first, order), Variables(1), order), second, order);
            && Target(t, 2).Some?
            && Expand(t, 0, PointerOf(t, 2), Target(t, 2).value, order).1 == [Variable("b", "1", 0)]
            && PointerOf(t, 2) == "/a"
            && Resolve(t.paused[0].state, "/a/b") == Some(Number("2"))
  {
    LookAtThreadZero(order);
    SingleKey(order, "b", Number("1"));
    var t := Apply(LOOKED, BeforeStep(0, Nested("2"), [], true), order);
    EscapePlain('b');
    var leaf := Kid("b", "b", Number("1"));
    assert Kids(INNER, order) == [leaf];
    assert [leaf][..0] == [];
    assert ShowAll(t, 0, "/a", [leaf]).1 == [] + [Variable("b", "1", 0)];
    LeadsToB();
    hide Resolve;
  }

  lemma LeadsToB()
    ensures Resolve(Nested("2"), "/a/b") == Some(Number("2"))
  {
    PlainToken("a");
    PlainToken("b");
    ResolveExtended(Nested("2"), "", "a");
    assert "" + "/" + "a" == "/a";
    ResolveExtended(Nested("2"), "/a", "b");
    assert "/a" + "/" + "b" == "/a/b";
  }
}

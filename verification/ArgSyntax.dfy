/** Inline arguments of a step: one scanner finds the closing bracket, another splits at commas, and on balanced
    arguments they agree. Text is ASCII, so positions in bytes and in characters coincide. */
module ArgSyntax {
  import opened Base
  import opened Trimming

  // ----- the two scanners -----

  /** What a scanner remembers: how deep it is, and whether it is inside a string or behind a backslash. */
  datatype Scan = Scan(depth: int, inString: bool, escape: bool)

  const Outside: Scan := Scan(0, false, false)

  function CloserOf(open: char): char { if open == '(' then ')' else ']' }

  predicate IsOpen(c: char) { c == '(' || c == '[' || c == '{' }

  predicate IsClose(c: char) { c == ')' || c == ']' || c == '}' }

  /** The quoting rules both scanners share; only the brackets they count differ. */
  function Advance(st: Scan, c: char, opens: bool, closes: bool): Scan {
    if st.escape then st.(escape := false)
    else if c == '\\' && st.inString then st.(escape := true)
    else if c == '"' then st.(inString := !st.inString)
    else if opens && !st.inString then st.(depth := st.depth + 1)
    else if closes && !st.inString then st.(depth := st.depth - 1)
    else st
  }

  function Shift(found: Option<nat>, k: nat): Option<nat> { if found.Some? then Some(found.value + k) else None }

  /** The first closer of the opened bracket outside strings and nested brackets of the same kind. */
  function FindClose(s: string, st: Scan, open: char): Option<nat> {
    if s == [] then None
    else if s[0] == CloserOf(open) && !st.escape && !st.inString && st.depth == 0 then Some(0)
    else Shift(FindClose(s[1..], Advance(st, s[0], s[0] == open, s[0] == CloserOf(open)), open), 1)
  }

  predicate Separates(st: Scan, c: char) { c == ',' && !st.escape && !st.inString && st.depth == 0 }

  /** The arguments still to come when `current` has been gathered so far. */
  function Split(s: string, st: Scan, current: string): seq<string> {
    if s == [] then (if Trim(current) == [] then [] else [Trim(current)])
    else if Separates(st, s[0]) then [Trim(current)] + Split(s[1..], st, [])
    else Split(s[1..], Advance(st, s[0], IsOpen(s[0]), IsClose(s[0])), current + [s[0]])
  }

  function SplitContent(content: string): seq<string> {
    if Trim(content) == [] then [] else Split(content, Outside, [])
  }

  /** The arguments and the text behind them; no value when the bracket is missing or never closed. */
  function InlineArgs(input: string): Option<(seq<string>, string)> {
    var ahead := TrimStart(input);
    if ahead == [] || (ahead[0] != '(' && ahead[0] != '[') then Some(([], input))
    else if input[0] != ahead[0] then None
    else
      var body := input[1..];
      match FindClose(body, Outside, ahead[0])
      case None => None
      case Some(n) => FindCloseBound(body, Outside, ahead[0]); Some((SplitContent(body[..n]), body[n + 1..]))
  }

  lemma {:induction false} FindCloseBound(s: string, st: Scan, open: char)
    ensures FindClose(s, st, open).Some? ==> FindClose(s, st, open).value < |s|
  {
    if s != [] {
      FindCloseBound(s[1..], Advance(st, s[0], s[0] == open, s[0] == CloserOf(open)), open);
    }
  }

  // ----- the source's loops -----

  method FindClosing(s: string, open: char) returns (end: Option<nat>)
    requires open == '(' || open == '['
    ensures end == FindClose(s, Outside, open)
  {
    var close := CloserOf(open);
    var depth, inString, escape := 0, false, false;
    var i := 0;
    while i < |s|
      invariant i <= |s|
      invariant depth >= 0 && FindClose(s, Outside, open)
          == Shift(FindClose(s[i..], Scan(depth, inString, escape), open), i)
    {
      ghost var before := Scan(depth, inString, escape);
      assert s[i..][1..] == s[i + 1..];
      var c := s[i];
      if escape {
        escape := false;
      } else if c == '\\' && inString {
        escape := true;
      } else if c == '"' {
        inString := !inString;
      } else if c == open && !inString {
        depth := depth + 1;
      } else if c == close && !inString {
        if depth == 0 {
          return Some(i);
        }
        depth := depth - 1;
      }
      assert Scan(depth, inString, escape) == Advance(before, c, c == open, c == close);
      i := i + 1;
    }
    return None;
  }

  method SplitBalancedArgs(content: string) returns (args: seq<string>)
    ensures args == SplitContent(content)
  {
    args := [];
    if Trim(content) == [] {
      return;
    }
    var current: string := [];
    var depth, inString, escape := 0, false, false;
    for i := 0 to |content|
      invariant args + Split(content[i..], Scan(depth, inString, escape), current) == Split(content, Outside, [])
    {
      assert content[i..][1..] == content[i + 1..];
      var c := content[i];
      if escape {
        current := current + [c];
        escape := false;
      } else if c == '\\' && inString {
        current := current + [c];
        escape := true;
      } else if c == '"' {
        current := current + [c];
        inString := !inString;
      } else if IsOpen(c) && !inString {
        current := current + [c];
        depth := depth + 1;
      } else if IsClose(c) && !inString {
        current := current + [c];
        depth := depth - 1;
      } else if c == ',' && depth == 0 && !inString {
        args := args + [Trim(current)];
        current := [];
      } else {
        current := current + [c];
      }
    }
    if Trim(current) != [] {
      args := args + [Trim(current)];
    }
  }

  method ParseInlineArgs(input: string) returns (r: Option<(seq<string>, string)>)
    ensures r == InlineArgs(input)
  {
    var ahead := TrimStart(input);
    if ahead == [] || (ahead[0] != '(' && ahead[0] != '[') {
      return Some(([], input));
    }
    if input[0] != ahead[0] {
      return None;
    }
    var body := input[1..];
    var end := FindClosing(body, ahead[0]);
    if end.None? {
      return None;
    }
    FindCloseBound(body, Outside, ahead[0]);
    var args := SplitBalancedArgs(body[..end.value]);
    return Some((args, body[end.value + 1..]));
  }

  // ----- well-formed arguments -----

  /** Reading text with a stack of the closers still owed: the reference notion of being balanced. */
  datatype Nesting = Nesting(owed: seq<char>, inString: bool, escape: bool) | Broken

  const Flat: Nesting := Nesting([], false, false)

  function Closer(open: char): char { if open == '(' then ')' else if open == '[' then ']' else '}' }

  function Read(st: Nesting, c: char): Nesting {
    if st.Broken? then Broken
    else if st.escape then Nesting(st.owed, st.inString, false)
    else if st.inString then Nesting(st.owed, c != '"', c == '\\')
    else if c == '"' then Nesting(st.owed, true, false)
    else if IsOpen(c) then Nesting(st.owed + [Closer(c)], false, false)
    else if IsClose(c) then
      if st.owed != [] && st.owed[|st.owed| - 1] == c then Nesting(st.owed[..|st.owed| - 1], false, false) else Broken
    else st
  }

  function ReadAll(st: Nesting, s: string): Nesting
    decreases |s|
  {
    if s == [] then st else ReadAll(Read(st, s[0]), s[1..])
  }

  /** Every bracket is closed by its own kind, and every string is closed. */
  predicate Balanced(s: string) { ReadAll(Flat, s) == Flat }

  predicate NoComma(st: Nesting, s: string) {
    forall i :: 0 <= i < |s| && s[i] == ',' ==> ReadAll(st, s[..i]) != Flat
  }

  predicate IsArgument(s: string) { s != [] && Trimmed(s) && Balanced(s) && NoComma(Flat, s) }

  function PrintArgs(args: seq<string>): string
    requires args != []
  {
    if |args| == 1 then args[0] else args[0] + ", " + PrintArgs(args[1..])
  }

  // ----- both scanners see the stack -----

  function Count(s: seq<char>, c: char): nat {
    if s == [] then 0 else Count(s[..|s| - 1], c) + if s[|s| - 1] == c then 1 else 0
  }

  /** The splitter counts every owed closer, the finder only those of its own kind. */
  function SplitterView(st: Nesting): Scan
    requires st.Nesting?
  {
    Scan(|st.owed|, st.inString, st.escape)
  }

  function FinderView(st: Nesting, open: char): Scan
    requires st.Nesting?
  {
    Scan(Count(st.owed, CloserOf(open)), st.inString, st.escape)
  }

  /** A backslash only counts inside a string. */
  predicate Proper(st: Nesting) { st.Nesting? && (st.escape ==> st.inString) }

  lemma {:induction false} BrokenStays(s: string)
    ensures ReadAll(Broken, s) == Broken
  {
    if s != [] { BrokenStays(s[1..]); }
  }

  lemma NoCommaTail(st: Nesting, s: string)
    requires s != [] && NoComma(st, s)
    ensures NoComma(Read(st, s[0]), s[1..])
    ensures s[0] == ',' ==> st != Flat
  {
    if s[0] == ',' { assert s[..0] == []; }
    forall i | 0 <= i < |s[1..]| && s[1..][i] == ',' ensures ReadAll(Read(st, s[0]), s[1..][..i]) != Flat {
      assert s[i + 1] == ',';
      assert s[..i + 1][1..] == s[1..][..i];
    }
  }

  lemma CountPush(s: seq<char>, c: char, x: char)
    ensures Count(s + [x], c) == Count(s, c) + if x == c then 1 else 0
  {
    assert (s + [x])[..|s|] == s;
  }

  lemma ViewsStep(st: Nesting, c: char, open: char)
    requires Proper(st) && Read(st, c).Nesting? && (open == '(' || open == '[')
    ensures Proper(Read(st, c))
    ensures SplitterView(Read(st, c)) == Advance(SplitterView(st), c, IsOpen(c), IsClose(c))
    ensures FinderView(Read(st, c), open) == Advance(FinderView(st, open), c, c == open, c == CloserOf(open))
    ensures c == CloserOf(open) && !st.escape && !st.inString ==> FinderView(st, open).depth > 0
  {
    if IsOpen(c) { CountPush(st.owed, CloserOf(open), Closer(c)); }
  }

  /** The finder passes over an argument. */
  lemma {:induction false} FinderPasses(st: Nesting, s: string, tail: string, open: char)
    requires Proper(st) && ReadAll(st, s) == Flat && (open == '(' || open == '[')
    ensures FindClose(s + tail, FinderView(st, open), open)
         == Shift(FindClose(tail, Outside, open), |s|)
    decreases |s|
  {
    if s == [] {
      assert s + tail == tail;
    } else {
      BrokenStays(s[1..]);
      ViewsStep(st, s[0], open);
      FinderPasses(Read(st, s[0]), s[1..], tail, open);
      assert (s + tail)[1..] == s[1..] + tail;
    }
  }

  /** The splitter gathers an argument whole. */
  lemma {:induction false} SplitterGathers(st: Nesting, s: string, tail: string, current: string)
    requires Proper(st) && ReadAll(st, s) == Flat && NoComma(st, s)
    ensures Split(s + tail, SplitterView(st), current) == Split(tail, Outside, current + s)
    decreases |s|
  {
    if s == [] {
      assert s + tail == tail;
      assert current + s == current;
    } else {
      BrokenStays(s[1..]);
      ViewsStep(st, s[0], '(');
      NoCommaTail(st, s);
      SplitterGathers(Read(st, s[0]), s[1..], tail, current + [s[0]]);
      assert (s + tail)[1..] == s[1..] + tail;
      assert current + [s[0]] + s[1..] == current + s;
      assert !Separates(SplitterView(st), s[0]);
    }
  }

  lemma {:induction false} FinderPassesAll(args: seq<string>, tail: string, open: char)
    requires args != [] && forall i :: 0 <= i < |args| ==> Balanced(args[i])
    requires open == '(' || open == '['
    ensures FindClose(PrintArgs(args) + tail, Outside, open)
         == Shift(FindClose(tail, Outside, open), |PrintArgs(args)|)
  {
    hide FindClose;
    if |args| == 1 {
      FinderPasses(Flat, args[0], tail, open);
    } else {
      var more := PrintArgs(args[1..]) + tail;
      FinderPassesAll(args[1..], tail, open);
      assert ReadAll(Flat, ", ") == Flat by {
        assert ", "[1..] == " " && " "[1..] == "";
        ReadPlain(',');
        ReadPlain(' ');
      }
      FinderPasses(Flat, ", ", more, open);
      FinderPasses(Flat, args[0], ", " + more, open);
      assert PrintArgs(args) + tail == args[0] + (", " + more);
    }
  }

  lemma ReadPlain(c: char)
    requires c == ',' || c == ' '
    ensures Read(Flat, c) == Flat
  {
  }

  lemma TrimKeeps(s: string, lead: string)
    requires s != [] && Trimmed(s) && (lead == "" || lead == " ")
    ensures Trim(lead + s) == s
  {
    if lead == " " {
      assert (lead + s)[1..] == s;
    } else {
      assert lead + s == s;
    }
    assert TrimStart(s) == s;
  }

  /** What a list may hold: arguments, and gaps where nothing stands between commas. */
  predicate IsList(args: seq<string>) {
    args != [] && forall i :: 0 <= i < |args| ==> args[i] == [] || IsArgument(args[i])
  }

  /** A gap at the end is no argument. */
  function WithoutLastGap(args: seq<string>): seq<string>
    requires args != []
  {
    if args[|args| - 1] == [] then args[..|args| - 1] else args
  }

  lemma {:induction false} SplitterGathersAll(args: seq<string>, lead: string)
    requires IsList(args) && (lead == "" || lead == " ")
    ensures Split(PrintArgs(args), Outside, lead) == WithoutLastGap(args)
    decreases |args|
  {
    hide Trim, Trimmed, Balanced, NoComma, IsWhitespace;
    if args[0] == [] { BlankLead(lead); } else { TrimKeeps(args[0], lead); }
    assert lead + [] == lead && args == [args[0]] + args[1..];
    if |args| == 1 {
      if args[0] != [] { SplitterStarts(args[0], "", lead); }
      assert PrintArgs(args) + "" == PrintArgs(args);
    } else {
      var more := PrintArgs(args[1..]);
      if args[0] != [] { SplitterStarts(args[0], ", " + more, lead); }
      assert PrintArgs(args) == args[0] + (", " + more);
      CommaSplits(more, lead + args[0]);
      SplitterGathersAll(args[1..], " ");
      assert WithoutLastGap(args) == [args[0]] + WithoutLastGap(args[1..]);
    }
  }

  lemma BlankLead(lead: string)
    requires lead == "" || lead == " "
    ensures Trim(lead) == ""
  {
    TrimDrops(lead, [], []);
    assert lead + [] + [] == lead;
  }

  lemma SplitterStarts(arg: string, tail: string, lead: string)
    requires IsArgument(arg)
    ensures Split(arg + tail, Outside, lead) == Split(tail, Outside, lead + arg)
  {
    SplitterGathers(Flat, arg, tail, lead);
  }

  lemma CommaSplits(more: string, current: string)
    ensures Split(", " + more, Outside, current) == [Trim(current)] + Split(more, Outside, " ")
  {
    hide Trim;
    assert (", " + more)[1..] == " " + more;
    assert (" " + more)[1..] == more;
    var none: string := [];
    assert none + [' '] == " ";
    assert Split(" " + more, Outside, none) == Split(more, Outside, " ");
  }

  /** Only a list of a single gap is blank. */
  lemma PrintNotBlank(args: seq<string>)
    requires IsList(args) && args != [[]]
    ensures Trim(PrintArgs(args)) != []
  {
    hide Balanced, NoComma, Trim, IsWhitespace;
    var s := PrintArgs(args);
    if |args| == 1 {
      assert s == args[0];
      TrimLeaves(s, 0);
    } else {
      WhitespaceIs(',');
      assert s[|args[0]|] == ',';
      TrimLeaves(s, |args[0]|);
    }
  }

  lemma WhitespaceIs(c: char)
    requires c == ','
    ensures !IsWhitespace(c)
  {
  }

  lemma OpenedContent(open: char, content: string, rest: string)
    requires open == '(' || open == '['
    requires FindClose(content + ([CloserOf(open)] + rest), Outside, open) == Some(|content|)
    ensures InlineArgs([open] + (content + ([CloserOf(open)] + rest))) == Some((SplitContent(content), rest))
  {
    hide FindClose, SplitContent;
    var body := content + ([CloserOf(open)] + rest);
    var input := [open] + body;
    assert input[1..] == body;
    assert TrimStart(input) == input;
    hide TrimStart;
    assert body[..|content|] == content && body[|content| + 1..] == rest;
  }

  /** Parsing the printed list gives back the list, a gap at its end aside, and exactly the text behind it: the
      close-finder stops where the comma-splitter's content ends. */
  lemma InlineArgsRoundTrip(args: seq<string>, open: char, rest: string)
    requires IsList(args) && (open == '(' || open == '[')
    ensures InlineArgs([open] + PrintArgs(args) + [CloserOf(open)] + rest) == Some((WithoutLastGap(args), rest))
  {
    hide IsArgument, Balanced, NoComma, PrintArgs, InlineArgs, Split, Trim;
    var content := PrintArgs(args);
    var closing := [CloserOf(open)] + rest;
    BalancedAll(args);
    FinderPassesAll(args, closing, open);
    assert FindClose(closing, Outside, open) == Some(0);
    hide FindClose;
    OpenedContent(open, content, rest);
    assert [open] + content + [CloserOf(open)] + rest == [open] + (content + closing);
    if args == [[]] {
      BlankContent([]);
      assert PrintArgs([[]]) == [] by { PrintOne([]); }
    } else {
      PrintNotBlank(args);
      SplitterGathersAll(args, "");
    }
  }

  lemma PrintOne(arg: string)
    ensures PrintArgs([arg]) == arg
  {
  }

  lemma BalancedAll(args: seq<string>)
    requires IsList(args)
    ensures forall i :: 0 <= i < |args| ==> Balanced(args[i])
  {
  }

  // ----- the other cases -----

  lemma BlankContent(content: string)
    requires Blank(content)
    ensures SplitContent(content) == []
  {
    TrimDrops(content, [], []);
    assert content + [] + [] == content;
  }

  /** Behind blanks, anything but a bracket means that there are no arguments, and the text is left as it is. */
  lemma NoBracketNoArgs(blanks: string, rest: string)
    requires Blank(blanks) && (rest != [] ==> !IsWhitespace(rest[0]) && rest[0] != '(' && rest[0] != '[')
    ensures InlineArgs(blanks + rest) == Some(([], blanks + rest))
  {
    hide IsWhitespace, TrimStart;
    TrimStartDrops(blanks, rest);
  }

  /** A bracket is no list of arguments unless it comes at once. */
  lemma BracketBehindBlanks(blanks: string, open: char, rest: string)
    requires Blank(blanks) && blanks != [] && (open == '(' || open == '[')
    ensures InlineArgs(blanks + [open] + rest) == None
  {
    OpensNot(open);
    hide IsWhitespace, TrimStart;
    TrimStartDrops(blanks, [open] + rest);
    assert blanks + [open] + rest == blanks + ([open] + rest);
    assert (blanks + [open] + rest)[0] == blanks[0];
  }

  lemma OpensNot(open: char)
    requires open == '(' || open == '['
    ensures !IsWhitespace(open)
  {
  }

  /** Nothing but blanks between the brackets is an empty list. */
  lemma EmptyList(open: char, blanks: string, rest: string)
    requires (open == '(' || open == '[') && Blank(blanks)
    ensures InlineArgs([open] + blanks + [CloserOf(open)] + rest) == Some(([], rest))
  {
    hide IsWhitespace;
    BlankBalanced(blanks);
    var closing := [CloserOf(open)] + rest;
    FinderPasses(Flat, blanks, closing, open);
    assert FindClose(closing, Outside, open) == Some(0);
    hide FindClose, InlineArgs, SplitContent;
    OpenedContent(open, blanks, rest);
    BlankContent(blanks);
    assert [open] + blanks + [CloserOf(open)] + rest == [open] + (blanks + closing);
  }

  lemma {:induction false} BlankBalanced(s: string)
    requires Blank(s)
    ensures Balanced(s)
  {
    if s != [] {
      assert IsWhitespace(s[0]);
      assert Blank(s[1..]);
      BlankBalanced(s[1..]);
    }
  }

  /** A bracket that nothing closes is an error: neither balanced text behind it nor text without its closer does. */
  lemma {:induction false} NeverClosed(open: char, s: string)
    requires (open == '(' || open == '[') && (Balanced(s) || CloserOf(open) !in s)
    ensures InlineArgs([open] + s) == None
  {
    OpensNot(open);
    assert ([open] + s)[1..] == s;
    assert TrimStart([open] + s) == [open] + s;
    if Balanced(s) {
      FinderPasses(Flat, s, [], open);
      assert s + [] == s;
    } else {
      NoCloser(open, s, Outside);
    }
    hide IsWhitespace, FindClose;
  }

  lemma {:induction false} NoCloser(open: char, s: string, st: Scan)
    requires CloserOf(open) !in s
    ensures FindClose(s, st, open) == None
  {
    if s != [] { NoCloser(open, s[1..], Advance(st, s[0], s[0] == open, s[0] == CloserOf(open))); }
  }
}

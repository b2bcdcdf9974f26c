/** The textual form of tag expressions: the printer, the precedence parser, and their agreement. Text is ASCII. */
module TagSyntax {
  import opened Base
  import opened JsonValues
  import opened Tags

  // ----- printing -----

  predicate IsBareChar(c: char) { IsAsciiAlphanumeric(c) || c == '_' || c == '-' }

  predicate AllBare(s: string) { forall i :: 0 <= i < |s| ==> IsBareChar(s[i]) }

  /** An argument with any other character is wrapped in backticks. */
  function PrintArg(arg: string): string { if AllBare(arg) then arg else "`" + arg + "`" }

  function PrintArgs(args: seq<string>): string
    requires args != []
  {
    if |args| == 1 then PrintArg(args[0]) else PrintArg(args[0]) + "," + PrintArgs(args[1..])
  }

  function PrintTag(t: Tag): string {
    "@" + (if t.negated then "!" else "") + t.name + (if t.args == [] then "" else "(" + PrintArgs(t.args) + ")")
  }

  function Print(e: TagExpr): string
    decreases e, 0
  {
    match e
    case Single(tag) => PrintTag(tag)
    case And(l, r) => PrintOperand(l) + " and " + PrintOperand(r)
    case Or(l, r) => Print(l) + " or " + Print(r)
  }

  /** Inside a conjunction, a disjunction keeps its parentheses. */
  function PrintOperand(e: TagExpr): string
    decreases e, 1
  {
    if e.Or? then "(" + Print(e) + ")" else Print(e)
  }

  // ----- parsing: a parser returns its value and the text it left -----

  predicate IsSpace(c: char) { c == ' ' || c == '\t' || c == '\r' || c == '\n' }

  function SkipSpace(s: string): (rest: string)
    ensures |rest| <= |s|
  {
    if s != [] && IsSpace(s[0]) then SkipSpace(s[1..]) else s
  }

  predicate StartsWith(s: string, prefix: string) { |prefix| <= |s| && s[..|prefix|] == prefix }

  predicate IsNameStart(c: char) { IsAsciiAlphanumeric(c) || c == '_' }

  function BareLength(s: string): (n: nat)
    ensures n <= |s|
  {
    if s != [] && IsBareChar(s[0]) then 1 + BareLength(s[1..]) else 0
  }

  function ParseIdentifier(s: string): (r: Option<(string, string)>)
    ensures r.Some? ==> |r.value.1| < |s|
  {
    if s == [] || !IsNameStart(s[0]) then None
    else
      var n := BareLength(s);
      Some((s[..n], s[n..]))
  }

  function BacktickIndex(s: string): Option<nat> {
    if s == [] then None
    else if s[0] == '`' then Some(0)
    else match BacktickIndex(s[1..])
      case None => None
      case Some(n) => Some(n + 1)
  }

  lemma {:induction false} BacktickBound(s: string)
    ensures BacktickIndex(s).Some? ==>
              var n := BacktickIndex(s).value;
              n < |s| && s[n] == '`' && '`' !in s[..n]
  {
    if s != [] && s[0] != '`' {
      BacktickBound(s[1..]);
      if BacktickIndex(s).Some? {
        var n := BacktickIndex(s).value;
        assert s[..n] == [s[0]] + s[1..][..n - 1];
      }
    }
  }

  function ParseBacktick(s: string): (r: Option<(string, string)>)
    ensures r.Some? ==> |r.value.1| < |s|
  {
    if s == [] || s[0] != '`' then None
    else
      match BacktickIndex(s[1..])
      case None => None
      case Some(n) => BacktickBound(s[1..]); Some((s[1..][..n], s[1..][n + 1..]))
  }

  function ParseArgument(s: string): (r: Option<(string, string)>)
    ensures r.Some? ==> |r.value.1| < |s|
  {
    if ParseBacktick(s).Some? then ParseBacktick(s) else ParseIdentifier(s)
  }

  /** Further arguments, each after a comma; an attempt that fails gives its text back. */
  function ParseMoreArgs(s: string): (r: (seq<string>, string))
    decreases |s|
  {
    if s == [] || s[0] != ',' then ([], s)
    else match ParseArgument(SkipSpace(SkipSpace(s[1..])))
      case None => ([], s)
      case Some((arg, rest)) =>
        var more := ParseMoreArgs(rest);
        ([arg] + more.0, more.1)
  }

  function ParseTagArgs(s: string): Option<(seq<string>, string)> {
    if s == [] || s[0] != '(' then None
    else match ParseArgument(SkipSpace(s[1..]))
      case None => None
      case Some((arg, rest)) =>
        var more := ParseMoreArgs(rest);
        if more.1 != [] && more.1[0] == ')' then Some(([arg] + more.0, more.1[1..])) else None
  }

  /** The arguments are optional: text that is not an argument list is left for what follows. */
  function ParseTag(s: string): Option<(Tag, string)> {
    if s == [] || s[0] != '@' then None
    else
      var negated := |s| >= 2 && s[1] == '!';
      match ParseIdentifier(s[if negated then 2 else 1..])
      case None => None
      case Some((name, rest)) =>
        match ParseTagArgs(rest)
        case None => Some((Tag(name, negated, []), rest))
        case Some((args, after)) => Some((Tag(name, negated, args), after))
  }

  lemma MoreArgsShrink(s: string)
    ensures |ParseMoreArgs(s).1| <= |s|
    decreases |s|
  {
  }

  lemma TagShrinks(s: string)
    ensures ParseTag(s).Some? ==> |ParseTag(s).value.1| < |s|
  {
    if ParseTag(s).Some? {
      var negated := |s| >= 2 && s[1] == '!';
      var rest := ParseIdentifier(s[if negated then 2 else 1..]).value.1;
      if ParseTagArgs(rest).Some? {
        MoreArgsShrink(ParseArgument(SkipSpace(rest[1..])).value.1);
      }
    }
  }

  function ParsePrimary(s: string): (r: Option<(TagExpr, string)>)
    ensures r.Some? ==> |r.value.1| < |s|
    decreases |s|, 0
  {
    var grouped := if s != [] && s[0] == '(' then ParseGroup(s[1..]) else None;
    if grouped.Some? then grouped
    else match ParseTag(s)
      case None => None
      case Some((tag, rest)) => TagShrinks(s); Some((Single(tag), rest))
  }

  /** An expression up to its closing parenthesis. */
  function ParseGroup(s: string): (r: Option<(TagExpr, string)>)
    ensures r.Some? ==> |r.value.1| < |s|
    decreases |s|, 3
  {
    match ParseOr(SkipSpace(s))
    case None => None
    case Some((e, rest)) =>
      var after := SkipSpace(rest);
      if after != [] && after[0] == ')' then Some((e, after[1..])) else None
  }

  function ParseAnd(s: string): (r: Option<(TagExpr, string)>)
    ensures r.Some? ==> |r.value.1| < |s|
    decreases |s|, 1
  {
    match ParsePrimary(s)
    case None => None
    case Some((first, rest)) => Some(ParseAndRest(first, rest))
  }

  /** Fold further conjuncts onto `acc` for as long as one parses. */
  function ParseAndRest(acc: TagExpr, s: string): (r: (TagExpr, string))
    ensures |r.1| <= |s|
    decreases |s|, 0
  {
    var at := SkipSpace(s);
    if !StartsWith(at, "and") then (acc, s)
    else match ParsePrimary(SkipSpace(at[3..]))
      case None => (acc, s)
      case Some((e, rest)) => ParseAndRest(And(acc, e), rest)
  }

  function ParseOr(s: string): (r: Option<(TagExpr, string)>)
    ensures r.Some? ==> |r.value.1| < |s|
    decreases |s|, 2
  {
    match ParseAnd(s)
    case None => None
    case Some((first, rest)) => Some(ParseOrRest(first, rest))
  }

  function ParseOrRest(acc: TagExpr, s: string): (r: (TagExpr, string))
    ensures |r.1| <= |s|
    decreases |s|, 0
  {
    var at := SkipSpace(s);
    if !StartsWith(at, "or") then (acc, s)
    else match ParseAnd(SkipSpace(at[2..]))
      case None => (acc, s)
      case Some((e, rest)) => ParseOrRest(Or(acc, e), rest)
  }

  // ----- which tags survive printing -----

  predicate Identifier(s: string) { s != [] && IsNameStart(s[0]) && AllBare(s) }

  /** A bare argument must be an identifier; a quoted one must not contain the quote. */
  predicate PrintableArg(arg: string) { Identifier(arg) || (!AllBare(arg) && '`' !in arg) }

  predicate PrintableTag(t: Tag) {
    Identifier(t.name) && forall i :: 0 <= i < |t.args| ==> PrintableArg(t.args[i])
  }

  predicate Printable(e: TagExpr) {
    match e
    case Single(tag) => PrintableTag(tag)
    case And(l, r) => Printable(l) && Printable(r)
    case Or(l, r) => Printable(l) && Printable(r)
  }

  /** Text that cannot be taken for more of a name. */
  predicate EndsName(rest: string) { rest == [] || !IsBareChar(rest[0]) }

  /** Text that cannot be taken for more of a tag. */
  predicate EndsTag(rest: string) { EndsName(rest) && (rest == [] || rest[0] != '(') }

  lemma {:induction false} BareLengthOf(s: string, rest: string)
    requires AllBare(s) && EndsName(rest)
    ensures BareLength(s + rest) == |s|
  {
    if s == [] {
      assert s + rest == rest;
    } else {
      assert (s + rest)[1..] == s[1..] + rest;
      BareLengthOf(s[1..], rest);
    }
  }

  lemma IdentifierReads(s: string, rest: string)
    requires Identifier(s) && EndsName(rest)
    ensures ParseIdentifier(s + rest) == Some((s, rest))
  {
    BareLengthOf(s, rest);
    assert (s + rest)[..|s|] == s && (s + rest)[|s|..] == rest;
  }

  lemma {:induction false} BacktickFound(s: string, rest: string)
    requires '`' !in s
    ensures BacktickIndex(s + "`" + rest) == Some(|s|)
  {
    if s == [] {
      assert s + "`" + rest == "`" + rest;
    } else {
      assert (s + "`" + rest)[1..] == s[1..] + "`" + rest;
      BacktickFound(s[1..], rest);
    }
  }

  lemma QuotedReads(arg: string, rest: string)
    requires '`' !in arg
    ensures ParseBacktick("`" + arg + "`" + rest) == Some((arg, rest))
  {
    var s := "`" + arg + "`" + rest;
    var body := arg + "`" + rest;
    assert s[1..] == body;
    BacktickFound(arg, rest);
    hide BacktickIndex;
    assert body[..|arg|] == arg && body[|arg| + 1..] == rest;
  }

  lemma BareReads(arg: string, rest: string)
    requires Identifier(arg) && EndsName(rest)
    ensures ParseArgument(arg + rest) == Some((arg, rest)) && !IsSpace((arg + rest)[0])
  {
    IdentifierReads(arg, rest);
    assert (arg + rest)[0] == arg[0];
    hide ParseIdentifier, AllBare;
  }

  lemma ArgumentReads(arg: string, rest: string)
    requires PrintableArg(arg) && EndsName(rest)
    ensures ParseArgument(PrintArg(arg) + rest) == Some((arg, rest))
    ensures !IsSpace((PrintArg(arg) + rest)[0])
  {
    if AllBare(arg) {
      BareReads(arg, rest);
      hide ParseArgument;
    } else {
      QuotedReads(arg, rest);
      hide ParseBacktick, AllBare;
    }
  }

  lemma NoSkip(s: string)
    requires s == [] || !IsSpace(s[0])
    ensures SkipSpace(s) == s
  {
  }

  lemma MoreArgsStep(s: string, text: string)
    requires s == "," + text && (text == [] || !IsSpace(text[0])) && ParseArgument(text).Some?
    ensures var (arg, rest) := ParseArgument(text).value;
            ParseMoreArgs(s) == ([arg] + ParseMoreArgs(rest).0, ParseMoreArgs(rest).1)
  {
    hide ParseArgument, SkipSpace;
    assert s[1..] == text;
    NoSkip(text);
  }

  lemma TagArgsStep(s: string, text: string)
    requires s == "(" + text && (text == [] || !IsSpace(text[0])) && ParseArgument(text).Some?
    ensures var (arg, rest) := ParseArgument(text).value;
            var more := ParseMoreArgs(rest);
            ParseTagArgs(s) == if more.1 != [] && more.1[0] == ')' then Some(([arg] + more.0, more.1[1..])) else None
  {
    hide ParseArgument, SkipSpace, ParseMoreArgs;
    assert s[1..] == text;
    NoSkip(text);
  }

  lemma {:induction false} ArgsRead(args: seq<string>, rest: string)
    requires args != [] && forall i :: 0 <= i < |args| ==> PrintableArg(args[i])
    ensures ParseTagArgs("(" + PrintArgs(args) + ")" + rest) == Some((args, rest))
  {
    hide ParseTagArgs, ParseMoreArgs, ParseArgument, PrintArg, PrintArgs, PrintableArg;
    PrintArgsSplit(args);
    var closing := ")" + rest;
    assert closing[1..] == rest;
    var after := PrintMore(args[1..]) + closing;
    MoreStarts(args[1..], closing);
    ArgumentReads(args[0], after);
    MoreArgsRead(args[1..], closing);
    hide PrintMore;
    assert "(" + PrintArgs(args) + ")" + rest == "(" + (PrintArg(args[0]) + after);
    TagArgsStep("(" + PrintArgs(args) + ")" + rest, PrintArg(args[0]) + after);
    assert [args[0]] + args[1..] == args;
  }

  lemma MoreStarts(args: seq<string>, rest: string)
    requires rest != [] && rest[0] == ')'
    ensures var after := PrintMore(args) + rest;
            after != [] && (after[0] == ',' || after[0] == ')') && EndsName(after)
  {
    if args == [] { assert PrintMore(args) + rest == rest; }
  }

  /** The arguments after the first, each behind its comma. */
  function PrintMore(args: seq<string>): string {
    if args == [] then "" else "," + PrintArg(args[0]) + PrintMore(args[1..])
  }

  lemma {:induction false} PrintArgsSplit(args: seq<string>)
    requires args != []
    ensures PrintArgs(args) == PrintArg(args[0]) + PrintMore(args[1..])
  {
    if |args| > 1 {
      PrintArgsSplit(args[1..]);
      assert args[1..][0] == args[1];
    }
  }

  lemma MoreSplit(args: seq<string>, rest: string)
    requires args != []
    ensures PrintMore(args) + rest == "," + (PrintArg(args[0]) + (PrintMore(args[1..]) + rest))
  {
    hide PrintArg;
  }

  lemma {:induction false} MoreArgsRead(args: seq<string>, rest: string)
    requires forall i :: 0 <= i < |args| ==> PrintableArg(args[i])
    requires rest != [] && rest[0] == ')'
    ensures ParseMoreArgs(PrintMore(args) + rest) == (args, rest)
  {
    if args == [] {
      assert PrintMore(args) + rest == rest;
    } else {
      hide ParseMoreArgs, ParseArgument, PrintArg, PrintableArg, PrintMore;
      var after := PrintMore(args[1..]) + rest;
      MoreStarts(args[1..], rest);
      ArgumentReads(args[0], after);
      MoreArgsRead(args[1..], rest);
      MoreSplit(args, rest);
      hide EndsName;
      MoreArgsStep(PrintMore(args) + rest, PrintArg(args[0]) + after);
      assert [args[0]] + args[1..] == args;
    }
  }

  function Sign(negated: bool): string { if negated then "!" else "" }

  function PrintTail(args: seq<string>): string { if args == [] then "" else "(" + PrintArgs(args) + ")" }

  lemma TagSplit(t: Tag, rest: string)
    requires Identifier(t.name)
    ensures var s := PrintTag(t) + rest;
            && s == "@" + Sign(t.negated) + (t.name + (PrintTail(t.args) + rest))
            && s[0] == '@' && (|s| >= 2 && s[1] == '!' <==> t.negated)
            && s[if t.negated then 2 else 1..] == t.name + (PrintTail(t.args) + rest)
  {
    hide PrintArgs, AllBare;
    var body := t.name + (PrintTail(t.args) + rest);
    assert body[0] == t.name[0];
    assert PrintTag(t) + rest == "@" + Sign(t.negated) + body;
  }

  lemma TagReads(t: Tag, rest: string)
    requires PrintableTag(t) && EndsTag(rest)
    ensures ParseTag(PrintTag(t) + rest) == Some((t, rest))
    ensures PrintTag(t)[0] == '@'
  {
    var tail := PrintTail(t.args) + rest;
    TagSplit(t, rest);
    if t.args == [] {
      assert tail == rest;
    } else {
      ArgsRead(t.args, rest);
    }
    hide PrintTag, PrintableArg, PrintArgs, Identifier;
    IdentifierReads(t.name, tail);
    hide ParseIdentifier;
  }

  // ----- the shape the parser gives back -----

  /** The left-nested form: chains of one operator lean left. */
  function LeftNest(e: TagExpr): TagExpr
    decreases e, 1
  {
    match e
    case Single(_) => e
    case And(l, r) => AndOnto(LeftNest(l), r)
    case Or(l, r) => OrOnto(LeftNest(l), r)
  }

  function AndOnto(acc: TagExpr, e: TagExpr): TagExpr
    decreases e, 2
  {
    if e.And? then AndOnto(AndOnto(acc, e.left), e.right) else And(acc, LeftNest(e))
  }

  function OrOnto(acc: TagExpr, e: TagExpr): TagExpr
    decreases e, 2
  {
    if e.Or? then OrOnto(OrOnto(acc, e.left), e.right) else Or(acc, LeftNest(e))
  }

  predicate LeftNested(e: TagExpr) {
    match e
    case Single(_) => true
    case And(l, r) => LeftNested(l) && LeftNested(r) && !r.And?
    case Or(l, r) => LeftNested(l) && LeftNested(r) && !r.Or?
  }

  predicate NoKeyword(rest: string, keyword: string) { !StartsWith(SkipSpace(rest), keyword) }

  lemma {:induction false} PrintStarts(e: TagExpr)
    requires Printable(e)
    ensures Print(e) != [] && (Print(e)[0] == '@' || Print(e)[0] == '(')
    ensures PrintOperand(e) != [] && (PrintOperand(e)[0] == '@' || PrintOperand(e)[0] == '(')
  {
    match e
    case Single(tag) =>
    case And(l, r) => PrintStarts(l);
    case Or(l, r) => PrintStarts(l);
  }

  /** A conjunct is read back whole. */
  lemma {:induction false} PrimaryReads(e: TagExpr, rest: string)
    requires Printable(e) && !e.And? && EndsTag(rest)
    ensures ParsePrimary(PrintOperand(e) + rest) == Some((LeftNest(e), rest))
    decreases e, 2
  {
    var s := PrintOperand(e) + rest;
    if e.Single? {
      TagReads(e.tag, rest);
      assert s[0] == '@';
    } else {
      var inner := Print(e) + (")" + rest);
      assert s == "(" + inner;
      assert s[1..] == inner;
      GroupReads(e, rest);
    }
  }

  lemma {:induction false} GroupReads(e: TagExpr, rest: string)
    requires Printable(e) && e.Or?
    ensures ParseGroup(Print(e) + (")" + rest)) == Some((LeftNest(e), rest))
    decreases e, 1
  {
    PrintStarts(e);
    DisjunctionReads(e, ")" + rest);
    hide Print, ParseOr, LeftNest, Printable;
    NoSkip(Print(e) + (")" + rest));
    NoSkip(")" + rest);
    hide SkipSpace;
    assert (")" + rest)[1..] == rest;
  }

  /** An operand of a conjunction is read as its conjuncts, and parsing goes on after it. */
  lemma {:induction false} AndReads(e: TagExpr, rest: string)
    requires Printable(e) && EndsTag(rest)
    ensures ParseAnd(PrintOperand(e) + rest) == Some(ParseAndRest(LeftNest(e), rest))
    decreases e, 3
  {
    hide ParsePrimary, ParseAndRest;
    if e.And? {
      hide ParseAnd;
      var more := " and " + (PrintOperand(e.right) + rest);
      assert PrintOperand(e) + rest == PrintOperand(e.left) + more;
      AndReads(e.left, more);
      AndMore(LeftNest(e.left), e.right, rest);
    } else {
      PrimaryReads(e, rest);
    }
  }

  lemma {:induction false} AndMore(acc: TagExpr, e: TagExpr, rest: string)
    requires Printable(e) && EndsTag(rest)
    ensures ParseAndRest(acc, " and " + (PrintOperand(e) + rest)) == ParseAndRest(AndOnto(acc, e), rest)
    decreases e, 3
  {
    hide ParseAndRest, ParsePrimary;
    if e.And? {
      var more := " and " + (PrintOperand(e.right) + rest);
      assert PrintOperand(e) + rest == PrintOperand(e.left) + more;
      AndMore(acc, e.left, more);
      AndMore(AndOnto(acc, e.left), e.right, rest);
    } else {
      PrintStarts(e);
      PrimaryReads(e, rest);
      AndStep(acc, PrintOperand(e) + rest);
    }
  }

  lemma AndStep(acc: TagExpr, text: string)
    requires text != [] && !IsSpace(text[0]) && ParsePrimary(text).Some?
    ensures ParseAndRest(acc, " and " + text)
        == ParseAndRest(And(acc, ParsePrimary(text).value.0), ParsePrimary(text).value.1)
  {
    hide ParsePrimary;
    KeywordSkipped("and", text);
    assert " and " + text == " " + "and" + " " + text;
  }

  lemma OrStep(acc: TagExpr, text: string)
    requires text != [] && !IsSpace(text[0]) && ParseAnd(text).Some?
    ensures ParseOrRest(acc, " or " + text) == ParseOrRest(Or(acc, ParseAnd(text).value.0), ParseAnd(text).value.1)
  {
    hide ParseAnd;
    KeywordSkipped("or", text);
    assert " or " + text == " " + "or" + " " + text;
  }

  lemma KeywordSkipped(keyword: string, text: string)
    requires text != [] && !IsSpace(text[0]) && keyword != [] && !IsSpace(keyword[0])
    ensures SkipSpace(" " + keyword + " " + text) == keyword + " " + text
    ensures StartsWith(keyword + " " + text, keyword)
    ensures SkipSpace((keyword + " " + text)[|keyword|..]) == text
  {
    var tail := " " + text;
    var body := keyword + tail;
    assert keyword + " " + text == body;
    assert " " + keyword + " " + text == " " + body;
    SkipOne(body);
    SkipOne(text);
    NoSkip(body);
    NoSkip(text);
    hide SkipSpace;
    assert body[|keyword|..] == tail;
  }

  lemma SkipOne(s: string)
    ensures SkipSpace(" " + s) == SkipSpace(s)
  {
    assert (" " + s)[1..] == s;
  }

  lemma PrintOr(e: TagExpr, rest: string)
    requires e.Or?
    ensures Print(e) + rest == Print(e.left) + (" or " + (Print(e.right) + rest))
  {
    hide PrintTag, PrintOperand;
  }

  lemma OrNotAnd(text: string)
    ensures EndsTag(" or " + text) && NoKeyword(" or " + text, "and")
  {
    assert (" or " + text)[1..] == "or " + text;
    NoSkip("or " + text);
    assert ("or " + text)[..3][0] == 'o';
  }

  lemma {:induction false} DisjunctionReads(e: TagExpr, rest: string)
    requires Printable(e) && e.Or? && EndsTag(rest) && NoKeyword(rest, "and") && NoKeyword(rest, "or")
    ensures ParseOr(Print(e) + rest) == Some((LeftNest(e), rest))
    decreases e, 0
  {
    hide ParseOr, NoKeyword, EndsTag;
    var more := " or " + (Print(e.right) + rest);
    assert Print(e) + rest == Print(e.left) + more;
    OrNotAnd(Print(e.right) + rest);
    OrReads(e.left, more);
    OrMore(LeftNest(e.left), e.right, rest);
    OrEnds(LeftNest(e), rest);
  }

  lemma OrEnds(e: TagExpr, rest: string)
    requires NoKeyword(rest, "or")
    ensures ParseOrRest(e, rest) == (e, rest)
  {
  }

  lemma {:induction false} OrReads(e: TagExpr, rest: string)
    requires Printable(e) && EndsTag(rest) && NoKeyword(rest, "and")
    ensures ParseOr(Print(e) + rest) == Some(ParseOrRest(LeftNest(e), rest))
    decreases e, 5
  {
    hide ParseOrRest, ParseAnd, NoKeyword, EndsTag;
    if e.Or? {
      hide ParseOr;
      var more := " or " + (Print(e.right) + rest);
      PrintOr(e, rest);
      hide Print;
      OrNotAnd(Print(e.right) + rest);
      OrReads(e.left, more);
      OrMore(LeftNest(e.left), e.right, rest);
    } else {
      ConjunctionReads(e, rest);
    }
  }

  lemma {:induction false} ConjunctionReads(e: TagExpr, rest: string)
    requires Printable(e) && !e.Or? && EndsTag(rest) && NoKeyword(rest, "and")
    ensures ParseAnd(Print(e) + rest) == Some((LeftNest(e), rest))
    decreases e, 4
  {
    AndReads(e, rest);
  }

  lemma {:induction false} OrMore(acc: TagExpr, e: TagExpr, rest: string)
    requires Printable(e) && EndsTag(rest) && NoKeyword(rest, "and")
    ensures ParseOrRest(acc, " or " + (Print(e) + rest)) == ParseOrRest(OrOnto(acc, e), rest)
    decreases e, 5
  {
    hide ParseOrRest, ParseAnd, NoKeyword, EndsTag;
    if e.Or? {
      var more := " or " + (Print(e.right) + rest);
      PrintOr(e, rest);
      hide Print;
      OrNotAnd(Print(e.right) + rest);
      OrMore(acc, e.left, more);
      OrMore(OrOnto(acc, e.left), e.right, rest);
    } else {
      PrintStarts(e);
      ConjunctionReads(e, rest);
      hide Print;
      OrStep(acc, Print(e) + rest);
    }
  }

  // ----- what nesting left keeps -----

  lemma {:induction false} LeftNestShape(e: TagExpr)
    ensures LeftNested(LeftNest(e))
    ensures LeftNest(e).And? == e.And? && LeftNest(e).Or? == e.Or?
    decreases e, 1
  {
    match e
    case Single(_) =>
    case And(l, r) => LeftNestShape(l); AndOntoShape(LeftNest(l), r);
    case Or(l, r) => LeftNestShape(l); OrOntoShape(LeftNest(l), r);
  }

  lemma {:induction false} AndOntoShape(acc: TagExpr, e: TagExpr)
    requires LeftNested(acc)
    ensures AndOnto(acc, e).And? && LeftNested(AndOnto(acc, e))
    decreases e, 2
  {
    if e.And? { AndOntoShape(acc, e.left); AndOntoShape(AndOnto(acc, e.left), e.right); } else { LeftNestShape(e); }
  }

  lemma {:induction false} OrOntoShape(acc: TagExpr, e: TagExpr)
    requires LeftNested(acc)
    ensures OrOnto(acc, e).Or? && LeftNested(OrOnto(acc, e))
    decreases e, 2
  {
    if e.Or? { OrOntoShape(acc, e.left); OrOntoShape(OrOnto(acc, e.left), e.right); } else { LeftNestShape(e); }
  }

  /** Nesting left changes exactly the expressions that do not already lean left. */
  lemma {:induction false} LeftNestFixes(e: TagExpr)
    ensures LeftNest(e) == e <==> LeftNested(e)
  {
    LeftNestShape(e);
    if LeftNested(e) {
      match e
      case Single(_) =>
      case And(l, r) => LeftNestFixes(l); LeftNestFixes(r);
      case Or(l, r) => LeftNestFixes(l); LeftNestFixes(r);
    }
  }

  lemma {:induction false} LeftNestEvaluates(e: TagExpr, ctx: TagContext, input: Json)
    ensures CheckTagExpr(LeftNest(e), ctx, input) == CheckTagExpr(e, ctx, input)
    decreases e, 1
  {
    match e
    case Single(_) =>
    case And(l, r) => LeftNestEvaluates(l, ctx, input); AndOntoEvaluates(LeftNest(l), r, ctx, input);
    case Or(l, r) => LeftNestEvaluates(l, ctx, input); OrOntoEvaluates(LeftNest(l), r, ctx, input);
  }

  lemma {:induction false} AndOntoEvaluates(acc: TagExpr, e: TagExpr, ctx: TagContext, input: Json)
    ensures CheckTagExpr(AndOnto(acc, e), ctx, input) == (CheckTagExpr(acc, ctx, input) && CheckTagExpr(e, ctx, input))
    decreases e, 2
  {
    if e.And? {
      AndOntoEvaluates(acc, e.left, ctx, input);
      AndOntoEvaluates(AndOnto(acc, e.left), e.right, ctx, input);
    } else {
      LeftNestEvaluates(e, ctx, input);
    }
  }

  lemma {:induction false} OrOntoEvaluates(acc: TagExpr, e: TagExpr, ctx: TagContext, input: Json)
    ensures CheckTagExpr(OrOnto(acc, e), ctx, input) == (CheckTagExpr(acc, ctx, input) || CheckTagExpr(e, ctx, input))
    decreases e, 2
  {
    if e.Or? {
      OrOntoEvaluates(acc, e.left, ctx, input);
      OrOntoEvaluates(OrOnto(acc, e.left), e.right, ctx, input);
    } else {
      LeftNestEvaluates(e, ctx, input);
    }
  }

  lemma {:induction false} LeftNestArgument(e: TagExpr, name: string)
    ensures TagArgument(LeftNest(e), name) == TagArgument(e, name)
    decreases e, 1
  {
    match e
    case Single(_) =>
    case And(l, r) => LeftNestArgument(l, name); OntoArgument(LeftNest(l), r, name);
    case Or(l, r) => LeftNestArgument(l, name); OntoArgument(LeftNest(l), r, name);
  }

  lemma {:induction false} OntoArgument(acc: TagExpr, e: TagExpr, name: string)
    ensures TagArgument(AndOnto(acc, e), name) == OrElse(TagArgument(acc, name), TagArgument(e, name))
    ensures TagArgument(OrOnto(acc, e), name) == OrElse(TagArgument(acc, name), TagArgument(e, name))
    decreases e, 2
  {
    LeftNestArgument(e, name);
    if e.And? {
      OntoArgument(acc, e.left, name);
      OntoArgument(AndOnto(acc, e.left), e.right, name);
    } else if e.Or? {
      OntoArgument(acc, e.left, name);
      OntoArgument(OrOnto(acc, e.left), e.right, name);
    }
  }

  lemma {:induction false} LeftNestPrints(e: TagExpr)
    ensures Print(LeftNest(e)) == Print(e) && PrintOperand(LeftNest(e)) == PrintOperand(e)
    decreases e, 1
  {
    LeftNestShape(e);
    match e
    case Single(_) =>
    case And(l, r) => LeftNestPrints(l); AndOntoPrints(LeftNest(l), r);
    case Or(l, r) => LeftNestPrints(l); OrOntoPrints(LeftNest(l), r);
  }

  lemma {:induction false} AndOntoPrints(acc: TagExpr, e: TagExpr)
    ensures AndOnto(acc, e).And? && Print(AndOnto(acc, e)) == PrintOperand(acc) + " and " + PrintOperand(e)
    decreases e, 2
  {
    hide LeftNest;
    if e.And? {
      AndOntoPrints(acc, e.left);
      AndOntoPrints(AndOnto(acc, e.left), e.right);
    } else {
      LeftNestPrints(e);
    }
  }

  lemma {:induction false} OrOntoPrints(acc: TagExpr, e: TagExpr)
    ensures OrOnto(acc, e).Or? && Print(OrOnto(acc, e)) == Print(acc) + " or " + Print(e)
    decreases e, 2
  {
    hide LeftNest, PrintOperand, PrintTag;
    if e.Or? {
      OrOntoPrints(acc, e.left);
      OrOntoPrints(OrOnto(acc, e.left), e.right);
      assert Print(acc) + " or " + Print(e) == Print(acc) + " or " + Print(e.left) + " or " + Print(e.right);
    } else {
      LeftNestPrints(e);
    }
  }

  // ----- the round trip -----

  /** Text at which an expression certainly ends. */
  predicate EndsExpression(rest: string) { EndsTag(rest) && NoKeyword(rest, "and") && NoKeyword(rest, "or") }

  /** Parsing the printed form consumes exactly it and gives an expression that evaluates the same everywhere, names the
      same task, result variable and error, and prints the same; it is the original exactly when that leans left. */
  lemma TagExpressionRoundTrip(e: TagExpr, rest: string) returns (parsed: TagExpr)
    requires Printable(e) && EndsExpression(rest)
    ensures ParseOr(Print(e) + rest) == Some((parsed, rest))
    ensures forall ctx, input :: CheckTagExpr(parsed, ctx, input) == CheckTagExpr(e, ctx, input)
    ensures forall name :: TagArgument(parsed, name) == TagArgument(e, name)
    ensures Print(parsed) == Print(e)
    ensures parsed == e <==> LeftNested(e)
  {
    parsed := LeftNest(e);
    OrReads(e, rest);
    forall ctx, input ensures CheckTagExpr(parsed, ctx, input) == CheckTagExpr(e, ctx, input) {
      LeftNestEvaluates(e, ctx, input);
    }
    forall name ensures TagArgument(parsed, name) == TagArgument(e, name) { LeftNestArgument(e, name); }
    LeftNestPrints(e);
    LeftNestFixes(e);
  }

  /** With nothing after it, the whole text is consumed. */
  lemma WholeTextRoundTrip(e: TagExpr)
    requires Printable(e)
    ensures ParseOr(Print(e)) == Some((LeftNest(e), ""))
  {
    OrReads(e, "");
    assert Print(e) + "" == Print(e);
  }

  // ----- exactly the printable tags survive -----

  lemma {:induction false} BareLengthAll(s: string)
    ensures AllBare(s[..BareLength(s)])
  {
    if s != [] && IsBareChar(s[0]) {
      BareLengthAll(s[1..]);
      assert s[..BareLength(s)] == [s[0]] + s[1..][..BareLength(s[1..])];
    }
  }

  lemma IdentifierRead(s: string)
    ensures ParseIdentifier(s).Some? ==> Identifier(ParseIdentifier(s).value.0)
  {
    BareLengthAll(s);
  }

  lemma ArgumentRead(s: string)
    ensures ParseArgument(s).Some? ==> Identifier(ParseArgument(s).value.0) || '`' !in ParseArgument(s).value.0
  {
    IdentifierRead(s);
    if s != [] { BacktickBound(s[1..]); }
  }

  /** An argument that is not printable is not read back at the place where it was printed. */
  lemma ArgumentLost(arg: string, rest: string)
    requires !PrintableArg(arg) && EndsName(rest) && rest != [] && (rest[0] == ',' || rest[0] == ')')
    ensures var s := SkipSpace(PrintArg(arg) + rest);
            ParseArgument(s).None? || ParseArgument(s).value.0 != arg
  {
    var s := PrintArg(arg) + rest;
    assert !IsSpace(s[0]);
    if AllBare(arg) {
      assert !IsNameStart(s[0]) && s[0] != '`';
    } else {
      ArgumentRead(s);
    }
  }

  lemma FirstArgKept(arg: string, after: string, args: seq<string>)
    requires EndsName(after) && after != [] && (after[0] == ',' || after[0] == ')')
    requires args != [] && args[0] == arg && ParseMoreArgs("," + (PrintArg(arg) + after)).0 == args
    ensures PrintableArg(arg)
    ensures ParseMoreArgs("," + (PrintArg(arg) + after)) == ([arg] + ParseMoreArgs(after).0, ParseMoreArgs(after).1)
  {
    var text := PrintArg(arg) + after;
    assert ("," + text)[1..] == text;
    SkipTwice(text);
    hide ParseArgument, PrintArg, PrintableArg, SkipSpace;
    if !PrintableArg(arg) {
      ArgumentLost(arg, after);
      assert false;
    }
    ArgumentReads(arg, after);
    MoreArgsStep("," + text, text);
  }

  lemma {:induction false} MoreArgsLost(args: seq<string>, rest: string)
    requires rest != [] && rest[0] == ')'
    requires ParseMoreArgs(PrintMore(args) + rest) == (args, rest)
    ensures forall i :: 0 <= i < |args| ==> PrintableArg(args[i])
  {
    if args != [] {
      var after := PrintMore(args[1..]) + rest;
      MoreStarts(args[1..], rest);
      hide ParseMoreArgs, ParseArgument, PrintArg, PrintableArg, SkipSpace, PrintMore, EndsName;
      MoreSplit(args, rest);
      FirstArgKept(args[0], after, args);
      assert args[1..] == ParseMoreArgs(after).0;
      MoreArgsLost(args[1..], rest);
    }
  }

  lemma SkipTwice(s: string)
    ensures SkipSpace(SkipSpace(s)) == SkipSpace(s)
  {
  }

  lemma ArgsLost(args: seq<string>)
    requires args != [] && ParseTagArgs(PrintTail(args)) == Some((args, ""))
    ensures forall i :: 0 <= i < |args| ==> PrintableArg(args[i])
  {
    var after := PrintMore(args[1..]) + ")";
    TailSplit(args);
    MoreStarts(args[1..], ")");
    hide ParseTagArgs, ParseMoreArgs, PrintArg, PrintTail, PrintMore, PrintableArg, EndsName;
    FirstTagArgKept(args, after);
    MoreArgsLost(args[1..], ")");
  }

  lemma TailSplit(args: seq<string>)
    requires args != []
    ensures PrintTail(args) == "(" + (PrintArg(args[0]) + (PrintMore(args[1..]) + ")"))
  {
    hide PrintArg, PrintArgs, PrintMore;
    PrintArgsSplit(args);
  }

  lemma FirstTagArgKept(args: seq<string>, after: string)
    requires EndsName(after) && after != [] && (after[0] == ',' || after[0] == ')')
    requires args != [] && ParseTagArgs("(" + (PrintArg(args[0]) + after)) == Some((args, ""))
    ensures PrintableArg(args[0]) && ParseMoreArgs(after) == (args[1..], ")")
  {
    var text := PrintArg(args[0]) + after;
    assert ("(" + text)[1..] == text;
    FirstArgPrintable(args, text, after);
    ArgumentReads(args[0], after);
    hide *;
    TagArgsStep("(" + text, text);
    TakeFirst(args, args[0], ParseMoreArgs(after));
  }

  lemma TakeFirst(args: seq<string>, first: string, more: (seq<string>, string))
    requires (if more.1 != [] && more.1[0] == ')' then Some(([first] + more.0, more.1[1..])) else None)
        == Some((args, ""))
    ensures more == (args[1..], ")")
  {
    assert args[1..] == more.0;
    assert more.1 == [')'] + more.1[1..] == ")";
  }

  lemma FirstArgPrintable(args: seq<string>, text: string, after: string)
    requires EndsName(after) && after != [] && (after[0] == ',' || after[0] == ')')
    requires args != [] && text == PrintArg(args[0]) + after && ("(" + text)[1..] == text
    requires ParseTagArgs("(" + text) == Some((args, ""))
    ensures PrintableArg(args[0])
  {
    hide ParseArgument, PrintArg, PrintableArg, SkipSpace, EndsName, ParseMoreArgs;
    if !PrintableArg(args[0]) {
      ArgumentLost(args[0], after);
      assert false;
    }
  }

  /** A tag comes back from its printed form exactly when it is printable. */
  lemma PrintableExactly(t: Tag)
    ensures ParseTag(PrintTag(t)) == Some((t, "")) <==> PrintableTag(t)
  {
    var s := PrintTag(t);
    assert s + "" == s;
    if PrintableTag(t) {
      TagReads(t, "");
    }
    if ParseTag(s) == Some((t, "")) {
      var negated := |s| >= 2 && s[1] == '!';
      IdentifierRead(s[if negated then 2 else 1..]);
      hide PrintTag, PrintArgs, Identifier, AllBare, ParseIdentifier, PrintableArg;
      if t.args != [] {
        TagSplit(t, "");
        assert PrintTail(t.args) + "" == PrintTail(t.args);
        IdentifierReads(t.name, PrintTail(t.args));
        ArgsLost(t.args);
      }
    }
  }

  // ----- the syntax itself -----

  function Plain(name: string): TagExpr { Single(Tag(name, false, [])) }

  function At(name: string): string { "@" + name }

  /** How tags look: the sign behind the mark, arguments in parentheses, backticks where an argument needs them. */
  lemma TagsLook()
    ensures PrintTag(Tag("when", false, ["a_1-b"])) == "@when(a_1-b)"
    ensures PrintTag(Tag("flag", true, ["c", "e.f"])) == "@!flag(c,`e.f`)"
  {
    assert "e.f"[1] == '.';
    assert ["c", "e.f"][1..] == ["e.f"];
  }

  /** How expressions look: the words between the operands, and parentheses around a disjunction that is part of a
      conjunction. */
  lemma ExpressionsLook(a: string, b: string, c: string)
    ensures Print(Or(Plain(a), And(Plain(b), Plain(c)))) == At(a) + " or " + (At(b) + " and " + At(c))
    ensures Print(Or(And(Plain(a), Plain(b)), Plain(c))) == At(a) + " and " + At(b) + " or " + At(c)
    ensures Print(And(Or(Plain(a), Plain(b)), Plain(c))) == "(" + (At(a) + " or " + At(b)) + ")" + " and " + At(c)
  {
    PlainPrints(a);
    PlainPrints(b);
    PlainPrints(c);
    hide PrintTag, At;
    assert Print(And(Plain(b), Plain(c))) == At(b) + " and " + At(c);
    assert Print(And(Plain(a), Plain(b))) == At(a) + " and " + At(b);
    assert Print(Or(Plain(a), Plain(b))) == At(a) + " or " + At(b);
    assert PrintOperand(Or(Plain(a), Plain(b))) == "(" + Print(Or(Plain(a), Plain(b))) + ")";
  }

  lemma PlainPrints(name: string)
    ensures Print(Plain(name)) == At(name)
  {
    assert "@" + "" + name + "" == "@" + name;
  }

  lemma PlainPrintable(name: string)
    requires Identifier(name)
    ensures Printable(Plain(name))
  {
  }

  /** `and` binds closer than `or`, and parentheses bind closer than both. */
  lemma Precedence(a: string, b: string, c: string)
    requires Identifier(a) && Identifier(b) && Identifier(c)
    ensures ParseOr(At(a) + " or " + (At(b) + " and " + At(c))) == Some((Or(Plain(a), And(Plain(b), Plain(c))), ""))
    ensures ParseOr(At(a) + " and " + At(b) + " or " + At(c)) == Some((Or(And(Plain(a), Plain(b)), Plain(c)), ""))
    ensures ParseOr("(" + (At(a) + " or " + At(b)) + ")" + " and " + At(c))
         == Some((And(Or(Plain(a), Plain(b)), Plain(c)), ""))
  {
    PlainPrintable(a);
    PlainPrintable(b);
    PlainPrintable(c);
    ExpressionsLook(a, b, c);
    hide ParseOr, At, Print, Identifier;
    LeftReads(Or(Plain(a), And(Plain(b), Plain(c))));
    LeftReads(Or(And(Plain(a), Plain(b)), Plain(c)));
    LeftReads(And(Or(Plain(a), Plain(b)), Plain(c)));
  }

  /** What leans left is read back as it is. */
  lemma LeftReads(e: TagExpr)
    requires Printable(e) && LeftNested(e)
    ensures ParseOr(Print(e)) == Some((e, ""))
  {
    WholeTextRoundTrip(e);
    LeftNestFixes(e);
  }
}

/** The texts in a step: paths with dots, lists with commas, scoped references, and the identity of a step
    itself. */
module Texts {
  import opened Base
  import opened Trimming
  import opened JsonValues
  import opened Tags
  import opened Ast
  import opened Runtime
  import opened Steps
  import opened JsonPointers
  import opened Modules

  // ----- lists -----

  /** The pieces with the separator between them. */
  function Joined(pieces: seq<string>, sep: char): string {
    if pieces == [] then [] else if |pieces| == 1 then pieces[0] else pieces[0] + [sep] + Joined(pieces[1..], sep)
  }

  lemma {:induction false} CommaPiece(piece: string, rest: string, current: string)
    requires ',' !in piece
    ensures SplitCommas(piece + rest, current) == SplitCommas(rest, current + piece)
    decreases |piece|
  {
    if piece == [] {
      assert piece + rest == rest && current + piece == current;
    } else {
      assert (piece + rest)[1..] == piece[1..] + rest;
      CommaPiece(piece[1..], rest, current + [piece[0]]);
      assert current + [piece[0]] + piece[1..] == current + piece;
    }
  }

  lemma {:induction false} CommasSplit(pieces: seq<string>)
    requires pieces != [] && forall p :: p in pieces ==> ',' !in p
    ensures SplitCommas(Joined(pieces, ','), []) == pieces
  {
    var p := pieces[0];
    if |pieces| == 1 {
      CommaPiece(p, [], []);
      assert p + [] == p && [] + p == p;
    } else {
      var rest := [','] + Joined(pieces[1..], ',');
      assert p + [','] + Joined(pieces[1..], ',') == p + rest;
      CommaPiece(p, rest, []);
      assert rest[1..] == Joined(pieces[1..], ',') && [] + p == p;
      CommasSplit(pieces[1..]);
    }
  }

  lemma {:induction false} DotPiece(piece: string, rest: string, current: string)
    requires '.' !in piece
    ensures SplitDots(piece + rest, current) == SplitDots(rest, current + piece)
    decreases |piece|
  {
    if piece == [] {
      assert piece + rest == rest && current + piece == current;
    } else {
      assert (piece + rest)[1..] == piece[1..] + rest;
      DotPiece(piece[1..], rest, current + [piece[0]]);
      assert current + [piece[0]] + piece[1..] == current + piece;
    }
  }

  lemma {:induction false} DotsSplit(pieces: seq<string>)
    requires pieces != [] && forall p :: p in pieces ==> '.' !in p
    ensures SplitDots(Joined(pieces, '.'), []) == pieces
  {
    var p := pieces[0];
    if |pieces| == 1 {
      DotPiece(p, [], []);
      assert p + [] == p && [] + p == p;
    } else {
      var rest := ['.'] + Joined(pieces[1..], '.');
      assert p + ['.'] + Joined(pieces[1..], '.') == p + rest;
      DotPiece(p, rest, []);
      assert rest[1..] == Joined(pieces[1..], '.') && [] + p == p;
      DotsSplit(pieces[1..]);
    }
  }

  lemma {:induction false} NonEmptyAppend(a: seq<string>, b: seq<string>)
    ensures NonEmpty(a + b) == NonEmpty(a) + NonEmpty(b)
  {
    if a == [] {
      assert a + b == b;
    } else {
      assert (a + b)[1..] == a[1..] + b;
      NonEmptyAppend(a[1..], b);
    }
  }

  lemma {:induction false} NonEmptyKeeps(parts: seq<string>)
    requires [] !in parts
    ensures NonEmpty(parts) == parts
  {
    if parts != [] { NonEmptyKeeps(parts[1..]); }
  }

  /** Keys and indices joined by dots are read back, behind a leading dot or not; so are they with empty parts between
      them. */
  lemma PathReads(before: seq<string>, after: seq<string>)
    requires (forall p :: p in before + after ==> '.' !in p && p != [])
    ensures before + after != [] ==> ParsePath(Joined(before + after, '.')) == before + after
    ensures ParsePath(Joined(before + [[]] + after, '.')) == before + after
  {
    var gap := before + [[]] + after;
    forall p | p in gap ensures '.' !in p { if p != [] { assert p in before + after; } }
    DotsSplit(gap);
    NonEmptyAppend(before + [[]], after);
    NonEmptyAppend(before, [[]]);
    NonEmptyAppend(before, after);
    NonEmptyKeeps(before + after);
    OneEmpty();
    assert NonEmpty(before) + [] == NonEmpty(before);
    if before + after != [] { DotsSplit(before + after); }
  }

  lemma OneEmpty()
    ensures NonEmpty([[]]) == []
  {
    var one: seq<string> := [[]];
    assert one[1..] == [];
  }

  /** Where a path leads: through the entry of a key in an object, through the element of an index in an array. */
  lemma PathLeads(v: Json, key: string, n: nat, rest: seq<string>)
    ensures GetPath(v, []) == Some(v)
    ensures v.Object? ==>
              GetPath(v, [key] + rest) == if key in v.fields then GetPath(v.fields[key], rest) else None
    ensures v.Array? ==>
              GetPath(v, [Decimal(n)] + rest) == if n < |v.items| then GetPath(v.items[n], rest) else None
    ensures !v.Object? && !v.Array? ==> GetPath(v, [key] + rest) == None
  {
    DecimalDigits(n);
    DecimalReads(n);
    assert ([key] + rest)[1..] == rest && ([Decimal(n)] + rest)[1..] == rest;
  }

  lemma {:induction false} DigitsOnly(s: string, acc: nat)
    requires exists i :: 0 <= i < |s| && !IsDigit(s[i])
    ensures ReadDigits(s, acc) == None
  {
    if IsDigit(s[0]) {
      var i :| 0 <= i < |s| && !IsDigit(s[i]);
      assert s[1..][i - 1] == s[i];
      DigitsOnly(s[1..], acc * 10 + (s[0] - '0') as nat);
    }
  }

  /** An index is written in decimal, with a plus sign or without; nothing else is one. */
  lemma IndexReads(n: nat, s: string)
    ensures ParseUnsigned(Decimal(n)) == Some(n) && ParseUnsigned("+" + Decimal(n)) == Some(n)
    ensures s == [] || s == "+" ==> ParseUnsigned(s) == None
    ensures s != [] && (exists i :: 0 < i < |s| && !IsDigit(s[i])) ==> ParseUnsigned(s) == None
    ensures s != [] && !IsDigit(s[0]) && s[0] != '+' ==> ParseUnsigned(s) == None
  {
    DecimalDigits(n);
    DecimalReads(n);
    assert ("+" + Decimal(n))[1..] == Decimal(n);
    if s != [] && exists i :: 0 < i < |s| && !IsDigit(s[i]) {
      var i :| 0 < i < |s| && !IsDigit(s[i]);
      assert s[1..][i - 1] == s[i];
      DigitsOnly(s, 0);
      DigitsOnly(s[1..], 0);
    }
  }

  // ----- names of tasks -----

  /** A name that can stand in a list. */
  predicate IsTaskName(name: string) { name != [] && Trimmed(name) && ',' !in name && name[0] != '[' }

  /** The names as items of a list, with a blank behind each comma. */
  function Items(names: seq<string>): seq<string> {
    if names == [] then [] else [names[0]] + Spaced(names[1..])
  }

  function Spaced(names: seq<string>): seq<string> {
    if names == [] then [] else [" " + names[0]] + Spaced(names[1..])
  }

  lemma {:induction false} SpacedTrim(names: seq<string>)
    requires forall n :: n in names ==> IsTaskName(n)
    ensures TrimAll(Spaced(names)) == names && forall p :: p in Spaced(names) ==> ',' !in p
  {
    hide Trim, Trimmed;
    if names != [] {
      assert IsTaskName(names[0]);
      assert Blank(" ") && Blank([]);
      TrimDrops(" ", names[0], []);
      assert " " + names[0] + [] == " " + names[0];
      SpacedTrim(names[1..]);
    }
  }

  lemma {:induction false} JoinedEnds(pieces: seq<string>)
    requires pieces != [] && forall p :: p in pieces ==> p != [] && !IsWhitespace(p[|p| - 1])
    ensures var s := Joined(pieces, ','); s != [] && s[0] == pieces[0][0] && !IsWhitespace(s[|s| - 1])
  {
    if |pieces| > 1 { JoinedEnds(pieces[1..]); }
  }

  lemma {:induction false} SpacedEnds(names: seq<string>)
    requires forall n :: n in names ==> IsTaskName(n)
    ensures forall p :: p in Spaced(names) ==> p != [] && !IsWhitespace(p[|p| - 1])
  {
    if names != [] {
      assert IsTaskName(names[0]);
      SpacedEnds(names[1..]);
    }
  }

  /** A `join` whose list was not parsed ahead waits for exactly the tasks that its config lists, in that order;
      one whose list was parsed, for those. */
  lemma JoinNamesRead(env: Env, s: Step, names: seq<string>)
    requires s.Regular? && names != [] && forall n :: n in names ==> IsTaskName(n)
    ensures s.joinTargets == None ==> JoinNames(env, s, Joined(Items(names), ',')) == Ok(names)
    ensures s.joinTargets == Some(names) ==> forall config :: JoinNames(env, s, config) == Ok(names)
  {
    var items := Items(names);
    var config := Joined(items, ',');
    ItemsTrim(names);
    ItemsText(names);
    hide *;
    NothingBlank();
    TrimDrops([], config, []);
    assert [] + config + [] == config;
    CommasSplit(items);
    NonEmptyKeeps(names);
    if s.joinTargets == None { ListRead(env, s, config, names); }
    forall config | s.joinTargets == Some(names) ensures JoinNames(env, s, config) == Ok(names) {
      TargetsRead(env, s, config);
    }
  }

  lemma NothingBlank()
    ensures Blank([])
  {
  }

  lemma ListRead(env: Env, s: Step, config: string, names: seq<string>)
    requires s.Regular? && s.joinTargets == None && names != [] && config != [] && config[0] != '['
    requires Trim(config) == config && NonEmpty(TrimAll(SplitCommas(config, []))) == names
    ensures JoinNames(env, s, config) == Ok(names)
  {
    hide Trim, NonEmpty, TrimAll, SplitCommas;
  }

  lemma TargetsRead(env: Env, s: Step, config: string)
    requires s.Regular? && s.joinTargets.Some?
    ensures JoinNames(env, s, config) == Ok(s.joinTargets.value)
  {
  }

  lemma ItemsTrim(names: seq<string>)
    requires names != [] && forall n :: n in names ==> IsTaskName(n)
    ensures var items := Items(names);
            items != [] && TrimAll(items) == names && [] !in names && forall p :: p in items ==> ',' !in p
  {
    hide Trim, IsWhitespace;
    assert IsTaskName(names[0]);
    TrimDrops([], names[0], []);
    assert [] + names[0] + [] == names[0];
    SpacedTrim(names[1..]);
    hide IsTaskName;
    assert Items(names)[1..] == Spaced(names[1..]);
    assert TrimAll(Items(names)) == [names[0]] + names[1..];
  }

  lemma ItemsText(names: seq<string>)
    requires names != [] && forall n :: n in names ==> IsTaskName(n)
    ensures var config := Joined(Items(names), ','); config != [] && config[0] != '[' && Trimmed(config)
  {
    hide IsWhitespace, Joined;
    assert IsTaskName(names[0]);
    SpacedEnds(names[1..]);
    JoinedEnds(Items(names));
  }

  /** A list without a name is an error. */
  lemma NoNamesRefused(env: Env, s: Step, config: string)
    requires s.Regular? && s.joinTargets == None && Blank(config)
    ensures JoinNames(env, s, config) == Err(ConfigError("join config must specify at least one task name"))
  {
    TrimDrops(config, [], []);
    assert config + [] + [] == config;
    OneEmpty();
    hide Trim;
    TrimDrops([], [], []);
    assert TrimAll([[]]) == [Trim([])] + TrimAll([]);
  }

  // ----- what a name in a config stands for -----

  /** No scope mark in the text. */
  predicate Unscoped(s: string) { forall i :: 0 <= i < |s| - 1 ==> s[i] != ':' || s[i + 1] != ':' }

  lemma {:induction false} UnscopedNone(s: string)
    requires Unscoped(s)
    ensures FindScope(s) == None
  {
    if |s| >= 2 { UnscopedNone(s[1..]); }
  }

  lemma UnscopedRef(text: string)
    requires Unscoped(text)
    ensures ParseScopedRef(text) == ScopedRef(None, text)
  {
    var before, after := TrimMeans(text);
    forall i | 0 <= i < |Trim(text)| - 1 ensures Trim(text)[i] != ':' || Trim(text)[i + 1] != ':' {
      assert text[|before| + i] == Trim(text)[i] && text[|before| + i + 1] == Trim(text)[i + 1];
    }
    UnscopedNone(Trim(text));
  }

  /** A name without a scope is first the one of the step's own module, then the one without a module: for
      pipelines, and for variables of the kind of the middleware. */
  lemma LocalNames(env: Env, loc: Location, kind: string, text: string)
    requires Unscoped(text)
    ensures var own, main := PipelineKey(loc.moduleId, text), PipelineKey(None, text);
            ResolveNamed(env, loc, text) == if own in env.named then Some(env.named[own])
                                            else if main in env.named then Some(env.named[main]) else None
    ensures var own, main := VariableKey(loc.moduleId, kind, text), VariableKey(None, kind, text);
            ResolveVariable(env, loc, kind, text) == if own in env.variables then Some(env.variables[own])
                                                     else if main in env.variables then Some(env.variables[main])
                                                     else None
  {
    UnscopedRef(text);
    hide ParseScopedRef;
  }

  /** A scoped name is the one of the module that the step's own module imports under the alias, and of no other. */
  lemma ScopedNames(env: Env, loc: Location, kind: string, alias: string, name: string, own: nat)
    requires loc.moduleId == Some(own) && own in env.modules && alias in env.modules[own].importMap
    requires IsIdentifierPart(alias) && IsIdentifierPart(name)
    ensures var text := alias + "::" + name;
            var there := Some(env.modules[own].importMap[alias]);
            var pipeline, variable := PipelineKey(there, name), VariableKey(there, kind, name);
            && ResolveNamed(env, loc, text)
                 == (if pipeline in env.named then Some(env.named[pipeline]) else None)
            && ResolveVariable(env, loc, kind, text)
                 == (if variable in env.variables then Some(env.variables[variable]) else None)
  {
    ScopedRefReads(alias, name);
    hide ParseScopedRef, IsIdentifierPart;
  }

  /** An alias that the step's module does not declare leads to no variable, and to a pipeline only if one of no module
      has the name. */
  lemma UnknownAlias(env: Env, loc: Location, kind: string, alias: string, name: string)
    requires IsIdentifierPart(alias) && IsIdentifierPart(name)
    requires loc.moduleId == None || loc.moduleId.value !in env.modules
             || alias !in env.modules[loc.moduleId.value].importMap
    ensures var text, main := alias + "::" + name, PipelineKey(None, name);
            && ResolveVariable(env, loc, kind, text) == None
            && ResolveNamed(env, loc, text) == if main in env.named then Some(env.named[main]) else None
  {
    ScopedRefReads(alias, name);
    hide ParseScopedRef, IsIdentifierPart;
  }

  /** No identifier: empty, begun with a hyphen, or with a character that is no letter, digit, underscore or hyphen. */
  predicate NoIdentifier(s: string) {
    s == [] || s[0] == '-'
    || exists c :: c in s && !('a' <= c <= 'z' || 'A' <= c <= 'Z' || '0' <= c <= '9' || c == '_' || c == '-')
  }

  lemma IdentifierMeans(s: string)
    ensures IsIdentifierPart(s) <==> !NoIdentifier(s)
  {
    if !NoIdentifier(s) {
      forall i | 1 <= i < |s| ensures IsAsciiAlphanumeric(s[i]) || s[i] == '_' || s[i] == '-' { assert s[i] in s; }
      assert s[0] in s;
    } else if IsIdentifierPart(s) {
      forall c | c in s ensures IsAsciiAlphanumeric(c) || c == '_' || c == '-' {
        var i :| 0 <= i < |s| && s[i] == c;
      }
    }
  }

  /** A scope mark makes a scoped name only between two identifiers; other text, a template for instance, stands as it
      is. */
  lemma OtherTextStands(before: string, after: string)
    requires ':' !in before && Trimmed(before + "::" + after) && (NoIdentifier(before) || NoIdentifier(after))
    ensures ParseScopedRef(before + "::" + after) == ScopedRef(None, before + "::" + after)
  {
    var s := before + "::" + after;
    TrimDrops([], s, []);
    assert [] + s + [] == s;
    ScopeAfter(before, after);
    IdentifierMeans(before);
    IdentifierMeans(after);
    assert s[..|before|] == before && s[|before| + 2..] == after;
    hide NoIdentifier, IsIdentifierPart, Trim;
  }

  // ----- the identity of a step -----

  lemma {:induction false} LastMark(a: string, b: string, c: string, d: string, mark: char)
    requires a + [mark] + b == c + [mark] + d && mark !in b && mark !in d
    ensures a == c && b == d
  {
    NoneAfter(a, b, mark);
    NoneAfter(c, d, mark);
    var s := a + [mark] + b;
    assert s[|a|] == mark && s[|c|] == (c + [mark] + d)[|c|] == mark;
    assert |a| == |c|;
    assert s[..|a|] == a && (c + [mark] + d)[..|c|] == c;
    assert s[|a| + 1..] == b && (c + [mark] + d)[|c| + 1..] == d;
  }

  lemma NoneAfter(a: string, b: string, mark: char)
    requires mark !in b
    ensures var s := a + [mark] + b; forall i :: |a| < i < |s| ==> s[i] != mark
  {
    var s := a + [mark] + b;
    forall i | |a| < i < |s| ensures s[i] != mark { assert s[i] == b[i - |a| - 1]; }
  }

  lemma DecimalOnce(a: nat, b: nat)
    requires Decimal(a) == Decimal(b)
    ensures a == b
  {
    DecimalReads(a);
    DecimalReads(b);
  }

  lemma NoMark(n: nat, mark: char)
    requires !IsDigit(mark)
    ensures mark !in Decimal(n)
  {
    DecimalDigits(n);
  }

  function FileText(s: Step): string { if s.loc.file.Some? then s.loc.file.value else "?" }

  /** Two steps share an identity only if file, line, column and position in their list agree: default cache keys of
      distinct steps stay apart. */
  lemma StepIdsApart(a: Step, i: nat, b: Step, j: nat)
    requires StepId(a, i) == StepId(b, j)
    ensures FileText(a) == FileText(b) && a.loc.line == b.loc.line && a.loc.column == b.loc.column && i == j
  {
    hide Decimal;
    var x := FileText(a) + [':'] + Decimal(a.loc.line);
    var y := FileText(b) + [':'] + Decimal(b.loc.line);
    var p := x + [':'] + Decimal(a.loc.column);
    var q := y + [':'] + Decimal(b.loc.column);
    assert StepId(a, i) == p + ['#'] + Decimal(i) && StepId(b, j) == q + ['#'] + Decimal(j);
    NoMark(i, '#');
    NoMark(j, '#');
    LastMark(p, Decimal(i), q, Decimal(j), '#');
    NoMark(a.loc.column, ':');
    NoMark(b.loc.column, ':');
    LastMark(x, Decimal(a.loc.column), y, Decimal(b.loc.column), ':');
    NoMark(a.loc.line, ':');
    NoMark(b.loc.line, ':');
    LastMark(FileText(a), Decimal(a.loc.line), FileText(b), Decimal(b.loc.line), ':');
    DecimalOnce(i, j);
    DecimalOnce(a.loc.column, b.loc.column);
    DecimalOnce(a.loc.line, b.loc.line);
  }
}

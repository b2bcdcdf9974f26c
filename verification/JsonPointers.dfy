/** JSON Pointers, as RFC 6901 sections 3 and 4 define them, and the pointers the debugger builds. */
module JsonPointers {
  import opened Base
  import opened JsonValues

  // ----- reference tokens -----

  function ReplaceChar(s: string, c: char, sub: string): string {
    if s == [] then [] else (if s[0] == c then sub else [s[0]]) + ReplaceChar(s[1..], c, sub)
  }

  function ReplacePair(s: string, a: char, b: char, sub: char): string
    decreases |s|
  {
    if s == [] then []
    else if |s| >= 2 && s[0] == a && s[1] == b then [sub] + ReplacePair(s[2..], a, b, sub)
    else [s[0]] + ReplacePair(s[1..], a, b, sub)
  }

  /** How the debugger writes an object key. */
  function Escape(key: string): string { ReplaceChar(ReplaceChar(key, '~', "~0"), '/', "~1") }

  /** How a pointer is read: first "~1", then "~0". */
  function Unescape(token: string): string { ReplacePair(ReplacePair(token, '~', '1', '/'), '~', '0', '~') }

  lemma {:induction false} EscapeCons(c: char, s: string)
    ensures Escape([c] + s) == (if c == '~' then "~0" else if c == '/' then "~1" else [c]) + Escape(s)
  {
    assert ([c] + s)[1..] == s;
    var once := ReplaceChar(s, '~', "~0");
    if c == '~' {
      assert ReplaceChar([c] + s, '~', "~0") == ['~'] + (['0'] + once);
      assert (['~'] + (['0'] + once))[1..] == ['0'] + once;
      assert (['0'] + once)[1..] == once;
      assert ReplaceChar(['0'] + once, '/', "~1") == ['0'] + Escape(s);
      assert ReplaceChar(['~'] + (['0'] + once), '/', "~1") == ['~'] + (['0'] + Escape(s));
    } else {
      assert ReplaceChar([c] + s, '~', "~0") == [c] + once;
      assert ([c] + once)[1..] == once;
    }
  }

  lemma {:induction false} SlashesBack(s: string)
    ensures ReplacePair(Escape(s), '~', '1', '/') == ReplaceChar(s, '~', "~0")
  {
    if s != [] {
      var c, rest := s[0], s[1..];
      assert s == [c] + rest;
      SlashesBack(rest);
      EscapeCons(c, rest);
      var e := Escape(rest);
      hide Escape;
      if c == '~' {
        assert Escape(s) == ['~'] + (['0'] + e);
        assert Escape(s)[1..] == ['0'] + e;
        assert (['0'] + e)[1..] == e;
        assert ReplacePair(['0'] + e, '~', '1', '/') == ['0'] + ReplacePair(e, '~', '1', '/');
        assert ReplacePair(Escape(s), '~', '1', '/') == ['~'] + ReplacePair(['0'] + e, '~', '1', '/');
      } else if c == '/' {
        assert Escape(s)[2..] == e;
      } else {
        assert Escape(s) == [c] + e;
        assert Escape(s)[1..] == e;
      }
    }
  }

  lemma {:induction false} TildesBack(s: string)
    ensures ReplacePair(ReplaceChar(s, '~', "~0"), '~', '0', '~') == s
  {
    if s != [] {
      TildesBack(s[1..]);
      var once := ReplaceChar(s, '~', "~0");
      var rest := ReplaceChar(s[1..], '~', "~0");
      if s[0] == '~' {
        assert once[2..] == rest;
      } else {
        assert once == [s[0]] + rest;
        assert once[1..] == rest;
      }
    }
  }

  lemma {:induction false} NoSlash(s: string)
    ensures '/' !in Escape(s)
  {
    if s != [] {
      assert s == [s[0]] + s[1..];
      EscapeCons(s[0], s[1..]);
      NoSlash(s[1..]);
    }
  }

  /** Every key, whatever it contains, comes back from its token. */
  lemma TokenRoundTrip(key: string)
    ensures Unescape(Escape(key)) == key && '/' !in Escape(key)
  {
    SlashesBack(key);
    TildesBack(key);
    NoSlash(key);
  }

  // ----- evaluation -----

  /** An array index is written in digits, without leading zeros. */
  function ArrayIndex(token: string): Option<nat> {
    if token == [] || !(forall i :: 0 <= i < |token| ==> IsDigit(token[i])) || (token[0] == '0' && |token| > 1)
        then None
    else ReadDigits(token, 0)
  }

  function Child(v: Json, token: string): Option<Json> {
    match v
    case Object(fields) => if Unescape(token) in fields then Some(fields[Unescape(token)]) else None
    case Array(items) =>
      (match ArrayIndex(Unescape(token))
       case Some(i) => if i < |items| then Some(items[i]) else None
       case None => None)
    case _ => None
  }

  /** The length of the text before the next slash. */
  function TokenLength(s: string): (n: nat)
    ensures n <= |s|
  {
    if s == [] || s[0] == '/' then 0 else 1 + TokenLength(s[1..])
  }

  function Resolve(v: Json, pointer: string): Option<Json>
    decreases |pointer|
  {
    if pointer == [] then Some(v)
    else if pointer[0] != '/' then None
    else
      var n := TokenLength(pointer[1..]);
      match Child(v, pointer[1..][..n])
      case None => None
      case Some(child) => Resolve(child, pointer[1..][n..])
  }

  lemma {:induction false} TokenEnds(token: string, rest: string)
    requires '/' !in token && (rest == [] || rest[0] == '/')
    ensures TokenLength(token + rest) == |token|
  {
    if token == [] {
      assert token + rest == rest;
    } else {
      assert (token + rest)[1..] == token[1..] + rest;
      TokenEnds(token[1..], rest);
    }
  }

  lemma {:induction false} TokenSplit(s: string)
    ensures '/' !in s[..TokenLength(s)] && (s[TokenLength(s)..] == [] || s[TokenLength(s)..][0] == '/')
  {
    if s != [] && s[0] != '/' {
      TokenSplit(s[1..]);
      assert s[..TokenLength(s)] == [s[0]] + s[1..][..TokenLength(s[1..])];
    }
  }

  /** One more token takes one more step from where the pointer led. */
  lemma {:induction false} ResolveExtended(v: Json, pointer: string, token: string)
    requires '/' !in token && Resolve(v, pointer).Some?
    ensures Resolve(v, pointer + "/" + token) == Child(Resolve(v, pointer).value, token)
    decreases |pointer|
  {
    var more := pointer + "/" + token;
    if pointer == [] {
      assert more == "/" + token;
      assert more[1..] == token + [];
      TokenEnds(token, []);
      assert more[1..][..|token|] == token && more[1..][|token|..] == [];
    } else {
      var s := pointer[1..];
      var n := TokenLength(s);
      TokenSplit(s);
      var tail := s[n..] + "/" + token;
      assert more[1..] == s[..n] + tail;
      assert tail[0] == '/';
      TokenEnds(s[..n], tail);
      assert more[1..][..n] == s[..n] && more[1..][n..] == tail;
      ResolveExtended(Child(v, s[..n]).value, s[n..], token);
    }
  }

  lemma {:induction false} DecimalDigits(n: nat)
    ensures var d := Decimal(n);
            d != [] && (forall i :: 0 <= i < |d| ==> IsDigit(d[i])) && (d[0] == '0' ==> n == 0)
  {
    if n >= 10 { DecimalDigits(n / 10); }
  }

  lemma {:induction false} ReadDigitsAppend(s: string, d: nat, acc: nat)
    requires d < 10
    ensures ReadDigits(s + [DigitChar(d)], acc)
         == (match ReadDigits(s, acc) case None => None case Some(m) => Some(m * 10 + d))
  {
    if s == [] {
      assert s + [DigitChar(d)] == [DigitChar(d)];
    } else {
      assert (s + [DigitChar(d)])[1..] == s[1..] + [DigitChar(d)];
      if IsDigit(s[0]) { ReadDigitsAppend(s[1..], d, acc * 10 + (s[0] - '0') as nat); }
    }
  }

  lemma {:induction false} DecimalReads(n: nat)
    ensures ReadDigits(Decimal(n), 0) == Some(n)
  {
    if n < 10 {
      assert Decimal(n) == [] + [DigitChar(n)];
      ReadDigitsAppend([], n, 0);
    } else {
      DecimalReads(n / 10);
      ReadDigitsAppend(Decimal(n / 10), n % 10, 0);
    }
  }

  lemma {:induction false} PlainToken(s: string)
    requires '~' !in s
    ensures Unescape(s) == s
  {
    PlainPair(s, '1', '/');
    PlainPair(s, '0', '~');
  }

  lemma {:induction false} PlainPair(s: string, b: char, sub: char)
    requires '~' !in s
    ensures ReplacePair(s, '~', b, sub) == s
  {
    if s != [] { PlainPair(s[1..], b, sub); }
  }

  /** An index written in decimal leads to that element. */
  lemma IndexToken(n: nat)
    ensures ArrayIndex(Unescape(Decimal(n))) == Some(n) && '/' !in Decimal(n)
  {
    DecimalDigits(n);
    DecimalReads(n);
    PlainToken(Decimal(n));
    if |Decimal(n)| > 1 { assert n >= 10; }
  }
}

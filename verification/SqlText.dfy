/**
 A reader for the SQL boolean fragment that the condition compiler emits: characters to tokens,
 tokens to an expression in which AND binds tighter than OR. It is written without looking at the
 compiler, so that what the emitted text means can be compared with what the condition tree means.
 */
module SqlText {
  import opened Text

  datatype Token =
    | LParen
    | RParen
    | Comma
    | Hole                               // a positional placeholder, `?`
    | And
    | Or
    | Quoted(open: char, body: string)   // a quoted identifier or literal
    | Word(text: string)                 // keyword, operator, number or bare identifier

  predicate IsSpace(c: char) { c == ' ' || c == '\t' || c == '\r' || c == '\n' }

  predicate IsOpenQuote(c: char) { c == '`' || c == '\"' || c == '\'' || c == '[' }

  function CloseQuote(open: char): char { if open == '[' then ']' else open }

  predicate IsPunctuation(c: char) { c == '(' || c == ')' || c == ',' || c == '?' }

  predicate IsWordChar(c: char) { !IsSpace(c) && !IsOpenQuote(c) && !IsPunctuation(c) }

  function Punctuation(c: char): Token
    requires IsPunctuation(c)
  {
    if c == '(' then LParen else if c == ')' then RParen else if c == ',' then Comma else Hole
  }

  function WordLength(s: string): (k: nat)
    ensures k <= |s|
    ensures forall i :: 0 <= i < k ==> IsWordChar(s[i])
    ensures k < |s| ==> !IsWordChar(s[k])
  {
    if s == "" || !IsWordChar(s[0]) then 0 else 1 + WordLength(s[1..])
  }

  /** Position of the first `c`, or the length when there is none. */
  function IndexOf(s: string, c: char): (k: nat)
    ensures k <= |s|
    ensures forall i :: 0 <= i < k ==> s[i] != c
    ensures k < |s| ==> s[k] == c
  {
    if s == "" || s[0] == c then 0 else 1 + IndexOf(s[1..], c)
  }

  /** The connective words, which all dialects share. */
  function Classify(word: string): Token
  {
    var lower := ToLower(word);
    if lower == "and" then And else if lower == "or" then Or else Word(word)
  }

  datatype Lexeme = Blank(rest: string) | Emit(token: Token, rest: string) | Unclosed

  /** One step of the reader. */
  function Lex(s: string): (r: Lexeme)
    requires s != ""
    ensures !r.Unclosed? ==> |r.rest| < |s|
  {
    if IsSpace(s[0]) then Blank(s[1..])
    else if IsPunctuation(s[0]) then Emit(Punctuation(s[0]), s[1..])
    else if IsOpenQuote(s[0]) then
      var k := IndexOf(s[1..], CloseQuote(s[0]));
      if k == |s| - 1 then Unclosed else Emit(Quoted(s[0], s[1..k + 1]), s[k + 2..])
    else
      var k := WordLength(s);
      Emit(Classify(s[..k]), s[k..])
  }

  function Tokenize(s: string): Option<seq<Token>>
    decreases |s|
  {
    if s == "" then Some([])
    else
      match Lex(s)
      case Unclosed => None
      case Blank(rest) => Tokenize(rest)
      case Emit(t, rest) => Prepend(t, Tokenize(rest))
  }

  function Prepend(t: Token, rest: Option<seq<Token>>): Option<seq<Token>>
  {
    if rest.Some? then Some([t] + rest.value) else None
  }

  // ---------------------------------------------------------------- dialects

  /** MySQL reads `&&` as AND and `||` as OR; to the other dialects they are operators inside an atom, if anything. */
  predicate SymbolsAreWords(db: string) { ToLower(db) == "mysql" }

  predicate IsSymbol(t: Token) { t == Word("&&") || t == Word("||") }

  function InDialect(t: Token, db: string): Token
  {
    if !SymbolsAreWords(db) || !IsSymbol(t) then t else if t == Word("&&") then And else Or
  }

  function Spoken(ts: seq<Token>, db: string): (r: seq<Token>)
    ensures |r| == |ts| && forall i :: 0 <= i < |ts| ==> r[i] == InDialect(ts[i], db)
  {
    seq(|ts|, i requires 0 <= i < |ts| => InDialect(ts[i], db))
  }

  /** The tokens of a text as a dialect takes them. */
  function ReadTokens(s: string, db: string): Option<seq<Token>>
  {
    match Tokenize(s)
    case None => None
    case Some(ts) => Some(Spoken(ts, db))
  }

  predicate NoSymbols(ts: seq<Token>) { forall i :: 0 <= i < |ts| ==> !IsSymbol(ts[i]) }

  /** Tokens without symbols are the same in every dialect. */
  lemma SpokenPlainly(ts: seq<Token>, db: string)
    requires NoSymbols(ts)
    ensures Spoken(ts, db) == ts
  {
  }

  lemma SpokenSum(a: seq<Token>, b: seq<Token>, db: string)
    ensures Spoken(a + b, db) == Spoken(a, db) + Spoken(b, db)
  {
  }

  // ---------------------------------------------------------------- tokens of a concatenation

  /** A text that cannot continue the word before it. */
  predicate StartsFresh(s: string) { s == "" || !IsWordChar(s[0]) }

  lemma {:induction false} WordLengthOf(w: string, rest: string)
    requires forall i :: 0 <= i < |w| ==> IsWordChar(w[i])
    requires StartsFresh(rest)
    ensures WordLength(w + rest) == |w|
  {
    if w != "" {
      assert (w + rest)[1..] == w[1..] + rest;
      WordLengthOf(w[1..], rest);
    } else {
      assert w + rest == rest;
    }
  }

  lemma {:induction false} IndexOfFirst(a: string, c: char, rest: string)
    requires c !in a
    ensures IndexOf(a + [c] + rest, c) == |a|
  {
    if a != "" {
      assert (a + [c] + rest)[1..] == a[1..] + [c] + rest;
      IndexOfFirst(a[1..], c, rest);
    }
  }

  lemma LexQuoted(open: char, body: string, rest: string)
    requires IsOpenQuote(open) && CloseQuote(open) !in body
    ensures Lex([open] + body + [CloseQuote(open)] + rest) == Emit(Quoted(open, body), rest)
  {
    var c := CloseQuote(open);
    var s := [open] + body + [c] + rest;
    assert s[1..] == body + [c] + rest;
    IndexOfFirst(body, c, rest);
    assert s[1..|body| + 1] == body;
    assert s[|body| + 2..] == rest;
  }

  lemma LexWord(w: string, rest: string)
    requires w != "" && forall i :: 0 <= i < |w| ==> IsWordChar(w[i])
    requires StartsFresh(rest)
    ensures Lex(w + rest) == Emit(Classify(w), rest)
  {
    WordLengthOf(w, rest);
    assert (w + rest)[0] == w[0];
    assert (w + rest)[..|w|] == w && (w + rest)[|w|..] == rest;
  }

  lemma LexExtendQuoted(a: string, b: string)
    requires a != "" && IsOpenQuote(a[0]) && !Lex(a).Unclosed?
    ensures Lex(a + b) == Lex(a).(rest := Lex(a).rest + b)
  {
    var k := IndexOf(a[1..], CloseQuote(a[0]));
    var body, tail := a[1..k + 1], a[k + 2..];
    assert a + b == [a[0]] + body + [CloseQuote(a[0])] + (tail + b);
    LexQuoted(a[0], body, tail + b);
  }

  lemma LexExtendWord(a: string, b: string)
    requires a != "" && IsWordChar(a[0]) && StartsFresh(b)
    ensures Lex(a).Emit? && Lex(a + b) == Lex(a).(rest := Lex(a).rest + b)
  {
    var k := WordLength(a);
    var word, tail := a[..k], a[k..];
    assert a + b == word + (tail + b);
    LexWord(word, tail + b);
  }

  /** Text that starts a new token does not disturb the step before it. */
  lemma LexExtend(a: string, b: string)
    requires a != "" && !Lex(a).Unclosed? && StartsFresh(b)
    ensures Lex(a + b) == Lex(a).(rest := Lex(a).rest + b)
  {
    if IsOpenQuote(a[0]) {
      LexExtendQuoted(a, b);
    } else if IsWordChar(a[0]) {
      LexExtendWord(a, b);
    } else {
      assert (a + b)[1..] == a[1..] + b;
    }
  }

  /** Tokenizing distributes over a concatenation whose right part starts a new token. */
  lemma {:induction false} TokenizeConcat(a: string, b: string)
    requires Tokenize(a).Some? && Tokenize(b).Some? && StartsFresh(b)
    ensures Tokenize(a + b) == Some(Tokenize(a).value + Tokenize(b).value)
    decreases |a|
  {
    if a == "" {
      assert a + b == b && [] + Tokenize(b).value == Tokenize(b).value;
    } else {
      LexExtend(a, b);
      var rest := Lex(a).rest;
      TokenizeConcat(rest, b);
      if Lex(a).Emit? {
        var head := [Lex(a).token];
        assert head + (Tokenize(rest).value + Tokenize(b).value) == head + Tokenize(rest).value + Tokenize(b).value;
      }
    }
  }

  lemma TokenizeNothing()
    ensures Tokenize("") == Some([])
  {
  }

  lemma TokenizeSpace(rest: string)
    ensures Tokenize(" " + rest) == Tokenize(rest)
  {
    assert (" " + rest)[1..] == rest;
  }

  lemma TokenizePunctuation(c: char, rest: string)
    requires IsPunctuation(c)
    ensures Tokenize([c] + rest) == Prepend(Punctuation(c), Tokenize(rest))
  {
    assert ([c] + rest)[1..] == rest;
  }

  lemma TokenizeLast(c: char)
    requires IsPunctuation(c)
    ensures Tokenize([c]) == Some([Punctuation(c)])
  {
    TokenizePunctuation(c, "");
    assert [c] + "" == [c] && [Punctuation(c)] + [] == [Punctuation(c)];
  }

  lemma TokenizeQuoted(open: char, body: string, rest: string)
    requires IsOpenQuote(open) && CloseQuote(open) !in body
    ensures Tokenize([open] + body + [CloseQuote(open)] + rest) == Prepend(Quoted(open, body), Tokenize(rest))
  {
    LexQuoted(open, body, rest);
  }

  lemma TokenizeWord(w: string, rest: string)
    requires w != "" && forall i :: 0 <= i < |w| ==> IsWordChar(w[i])
    requires StartsFresh(rest)
    ensures Tokenize(w + rest) == Prepend(Classify(w), Tokenize(rest))
  {
    LexWord(w, rest);
  }

  /** A word standing between spaces. */
  lemma TokenizeSpacedWord(w: string, rest: string)
    requires w != "" && forall i :: 0 <= i < |w| ==> IsWordChar(w[i])
    ensures Tokenize(" " + w + " " + rest) == Prepend(Classify(w), Tokenize(rest))
  {
    hide Tokenize;
    TokenizeSpace(rest);
    TokenizeWord(w, " " + rest);
    TokenizeSpace(w + (" " + rest));
    assert " " + w + " " + rest == " " + (w + (" " + rest));
  }

  // ---------------------------------------------------------------- parsing

  datatype Expr =
    | Either(left: Expr, right: Expr)
    | Both(left: Expr, right: Expr)
    | Group(inner: Expr)
    | Atom(tokens: seq<Token>)

  /** How many tokens make up the atom at the front: up to a connective or a closing parenthesis at its own level. */
  function AtomLength(ts: seq<Token>, depth: nat): (r: Option<nat>)
    ensures r.Some? ==> r.value <= |ts|
  {
    if ts == [] then (if depth == 0 then Some(0) else None)
    else if depth == 0 && (ts[0].And? || ts[0].Or? || ts[0].RParen?) then Some(0)
    else
      var next := if ts[0].LParen? then depth + 1 else if ts[0].RParen? then depth - 1 else depth;
      match AtomLength(ts[1..], next)
      case None => None
      case Some(k) => Some(k + 1)
  }

  datatype Parsed = Parsed(expr: Expr, rest: seq<Token>)

  /** expr := run [OR expr] */
  function ParseExpr(ts: seq<Token>): (r: Option<Parsed>)
    ensures r.Some? ==> |r.value.rest| < |ts|
    decreases |ts|, 2
  {
    match ParseRun(ts)
    case None => None
    case Some(Parsed(left, rest)) =>
      if rest != [] && rest[0].Or? then
        match ParseExpr(rest[1..])
        case None => None
        case Some(Parsed(right, rest')) => Some(Parsed(Either(left, right), rest'))
      else Some(Parsed(left, rest))
  }

  /** run := primary [AND run] */
  function ParseRun(ts: seq<Token>): (r: Option<Parsed>)
    ensures r.Some? ==> |r.value.rest| < |ts|
    decreases |ts|, 1
  {
    match ParsePrimary(ts)
    case None => None
    case Some(Parsed(left, rest)) =>
      if rest != [] && rest[0].And? then
        match ParseRun(rest[1..])
        case None => None
        case Some(Parsed(right, rest')) => Some(Parsed(Both(left, right), rest'))
      else Some(Parsed(left, rest))
  }

  /** primary := '(' expr ')' | atom */
  function ParsePrimary(ts: seq<Token>): (r: Option<Parsed>)
    ensures r.Some? ==> |r.value.rest| < |ts|
    decreases |ts|, 0
  {
    if ts == [] then None
    else if ts[0].LParen? then
      match ParseExpr(ts[1..])
      case None => None
      case Some(Parsed(e, rest)) =>
        if rest != [] && rest[0].RParen? then Some(Parsed(Group(e), rest[1..])) else None
    else
      match AtomLength(ts, 0)
      case None => None
      case Some(k) => if k == 0 then None else Some(Parsed(Atom(ts[..k]), ts[k..]))
  }

  /** A whole text read as one boolean expression. */
  function ParseText(s: string, db: string): Option<Expr>
  {
    match ReadTokens(s, db)
    case None => None
    case Some(ts) =>
      match ParseExpr(ts)
      case None => None
      case Some(Parsed(e, rest)) => if rest == [] then Some(e) else None
  }

  // ---------------------------------------------------------------- parsing inside a larger text

  /** What may follow an expression without becoming part of it. */
  predicate Closes(x: seq<Token>) { x == [] || x[0].RParen? }

  predicate EndsRun(x: seq<Token>) { x == [] || x[0].RParen? || x[0].Or? }

  predicate EndsPrimary(x: seq<Token>) { x == [] || x[0].RParen? || x[0].Or? || x[0].And? }

  lemma {:induction false} AtomLengthExtend(ts: seq<Token>, depth: nat, x: seq<Token>)
    requires AtomLength(ts, depth).Some? && EndsPrimary(x)
    ensures AtomLength(ts + x, depth) == AtomLength(ts, depth)
  {
    if ts == [] {
      assert ts + x == x;
    } else if !(depth == 0 && (ts[0].And? || ts[0].Or? || ts[0].RParen?)) {
      var next := if ts[0].LParen? then depth + 1 else if ts[0].RParen? then depth - 1 else depth;
      assert (ts + x)[1..] == ts[1..] + x;
      AtomLengthExtend(ts[1..], next, x);
    }
  }

  lemma {:induction false} ParseExprExtend(ts: seq<Token>, x: seq<Token>)
    requires ParseExpr(ts).Some? && Closes(x)
    ensures ParseExpr(ts + x) == Some(Parsed(ParseExpr(ts).value.expr, ParseExpr(ts).value.rest + x))
    decreases |ts|, 2
  {
    ParseRunExtend(ts, x);
    var rest := ParseRun(ts).value.rest;
    if rest != [] && rest[0].Or? {
      assert (rest + x)[1..] == rest[1..] + x;
      ParseExprExtend(rest[1..], x);
    } else if rest == [] {
      assert rest + x == x;
    }
  }

  lemma {:induction false} ParseRunExtend(ts: seq<Token>, x: seq<Token>)
    requires ParseRun(ts).Some? && Closes(x)
    ensures ParseRun(ts + x) == Some(Parsed(ParseRun(ts).value.expr, ParseRun(ts).value.rest + x))
    decreases |ts|, 1
  {
    ParsePrimaryExtend(ts, x);
    var rest := ParsePrimary(ts).value.rest;
    if rest != [] && rest[0].And? {
      assert (rest + x)[1..] == rest[1..] + x;
      ParseRunExtend(rest[1..], x);
    } else if rest == [] {
      assert rest + x == x;
    }
  }

  lemma {:induction false} ParsePrimaryExtend(ts: seq<Token>, x: seq<Token>)
    requires ParsePrimary(ts).Some? && Closes(x)
    ensures ParsePrimary(ts + x) == Some(Parsed(ParsePrimary(ts).value.expr, ParsePrimary(ts).value.rest + x))
    decreases |ts|, 0
  {
    if ts[0].LParen? {
      assert (ts + x)[1..] == ts[1..] + x;
      ParseExprExtend(ts[1..], x);
      var rest := ParseExpr(ts[1..]).value.rest;
      assert (rest + x)[1..] == rest[1..] + x;
    } else {
      AtomLengthExtend(ts, 0, x);
      var k := AtomLength(ts, 0).value;
      assert (ts + x)[..k] == ts[..k] && (ts + x)[k..] == ts[k..] + x;
    }
  }

  /** A whole expression between parentheses is one primary. */
  lemma ParseGroup(ts: seq<Token>, e: Expr, x: seq<Token>)
    requires ParseExpr(ts) == Some(Parsed(e, []))
    ensures ParsePrimary([LParen] + ts + [RParen] + x) == Some(Parsed(Group(e), x))
  {
    ParseExprExtend(ts, [RParen] + x);
    var whole := [LParen] + ts + [RParen] + x;
    assert whole[1..] == ts + ([RParen] + x);
    assert [] + ([RParen] + x) == [RParen] + x;
    assert ([RParen] + x)[1..] == x;
  }

  /** A run of tokens with no connective and balanced parentheses is one primary. */
  lemma ParseAtom(ts: seq<Token>, x: seq<Token>)
    requires ts != [] && !ts[0].LParen? && AtomLength(ts, 0) == Some(|ts|) && EndsPrimary(x)
    ensures ParsePrimary(ts + x) == Some(Parsed(Atom(ts), x))
  {
    AtomLengthExtend(ts, 0, x);
    assert (ts + x)[..|ts|] == ts && (ts + x)[|ts|..] == x;
  }

  // ---------------------------------------------------------------- placeholders

  function HolesIn(ts: seq<Token>): nat
  {
    if ts == [] then 0 else (if ts[0].Hole? then 1 else 0) + HolesIn(ts[1..])
  }

  function Holes(e: Expr): nat
  {
    match e
    case Either(l, r) => Holes(l) + Holes(r)
    case Both(l, r) => Holes(l) + Holes(r)
    case Group(i) => Holes(i)
    case Atom(ts) => HolesIn(ts)
  }

  lemma {:induction false} HolesInConcat(a: seq<Token>, b: seq<Token>)
    ensures HolesIn(a + b) == HolesIn(a) + HolesIn(b)
  {
    if a == [] {
      assert a + b == b;
    } else {
      assert (a + b)[1..] == a[1..] + b;
      HolesInConcat(a[1..], b);
    }
  }

  /** The parser loses no placeholder: those of the tokens read are those of the expression built. */
  lemma {:induction false} ParseExprHoles(ts: seq<Token>)
    requires ParseExpr(ts).Some?
    ensures HolesIn(ts) == Holes(ParseExpr(ts).value.expr) + HolesIn(ParseExpr(ts).value.rest)
    decreases |ts|, 2
  {
    ParseRunHoles(ts);
    var rest := ParseRun(ts).value.rest;
    if rest != [] && rest[0].Or? {
      ParseExprHoles(rest[1..]);
    }
  }

  lemma {:induction false} ParseRunHoles(ts: seq<Token>)
    requires ParseRun(ts).Some?
    ensures HolesIn(ts) == Holes(ParseRun(ts).value.expr) + HolesIn(ParseRun(ts).value.rest)
    decreases |ts|, 1
  {
    ParsePrimaryHoles(ts);
    var rest := ParsePrimary(ts).value.rest;
    if rest != [] && rest[0].And? {
      ParseRunHoles(rest[1..]);
    }
  }

  lemma {:induction false} ParsePrimaryHoles(ts: seq<Token>)
    requires ParsePrimary(ts).Some?
    ensures HolesIn(ts) == Holes(ParsePrimary(ts).value.expr) + HolesIn(ParsePrimary(ts).value.rest)
    decreases |ts|, 0
  {
    if ts[0].LParen? {
      ParseExprHoles(ts[1..]);
    } else {
      var k := AtomLength(ts, 0).value;
      HolesInConcat(ts[..k], ts[k..]);
      assert ts[..k] + ts[k..] == ts;
    }
  }

  // ---------------------------------------------------------------- connectives

  function LinksIn(ts: seq<Token>): nat
  {
    if ts == [] then 0 else (if ts[0].And? || ts[0].Or? then 1 else 0) + LinksIn(ts[1..])
  }

  function Links(e: Expr): nat
  {
    match e
    case Either(l, r) => Links(l) + 1 + Links(r)
    case Both(l, r) => Links(l) + 1 + Links(r)
    case Group(i) => Links(i)
    case Atom(ts) => LinksIn(ts)
  }

  lemma {:induction false} LinksInConcat(a: seq<Token>, b: seq<Token>)
    ensures LinksIn(a + b) == LinksIn(a) + LinksIn(b)
  {
    if a == [] {
      assert a + b == b;
    } else {
      assert (a + b)[1..] == a[1..] + b;
      LinksInConcat(a[1..], b);
    }
  }

  /** The parser makes one node of every connective that it reads, and no other. */
  lemma {:induction false} ParseExprLinks(ts: seq<Token>)
    requires ParseExpr(ts).Some?
    ensures LinksIn(ts) == Links(ParseExpr(ts).value.expr) + LinksIn(ParseExpr(ts).value.rest)
    decreases |ts|, 2
  {
    ParseRunLinks(ts);
    var rest := ParseRun(ts).value.rest;
    if rest != [] && rest[0].Or? {
      ParseExprLinks(rest[1..]);
    }
  }

  lemma {:induction false} ParseRunLinks(ts: seq<Token>)
    requires ParseRun(ts).Some?
    ensures LinksIn(ts) == Links(ParseRun(ts).value.expr) + LinksIn(ParseRun(ts).value.rest)
    decreases |ts|, 1
  {
    ParsePrimaryLinks(ts);
    var rest := ParsePrimary(ts).value.rest;
    if rest != [] && rest[0].And? {
      ParseRunLinks(rest[1..]);
    }
  }

  lemma {:induction false} ParsePrimaryLinks(ts: seq<Token>)
    requires ParsePrimary(ts).Some?
    ensures LinksIn(ts) == Links(ParsePrimary(ts).value.expr) + LinksIn(ParsePrimary(ts).value.rest)
    decreases |ts|, 0
  {
    if ts[0].LParen? {
      ParseExprLinks(ts[1..]);
    } else {
      var k := AtomLength(ts, 0).value;
      LinksInConcat(ts[..k], ts[k..]);
      assert ts[..k] + ts[k..] == ts;
    }
  }

  /** A text that is read as an expression has that expression's placeholders and connectives. */
  lemma ParseTextCounts(s: string, db: string)
    requires ParseText(s, db).Some?
    ensures
      var e, ts := ParseText(s, db).value, ReadTokens(s, db).value;
      HolesIn(ts) == Holes(e) && LinksIn(ts) == Links(e)
  {
    hide Tokenize;
    var ts := ReadTokens(s, db).value;
    ParseExprHoles(ts);
    ParseExprLinks(ts);
  }
}

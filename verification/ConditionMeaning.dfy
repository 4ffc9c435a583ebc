/**
 The compiler's correctness: the emitted text, tokenized and parsed with AND binding tighter than OR
 and with arguments bound by position, has the truth of the condition tree on every row.
 */
module ConditionMeaning {
  import opened Text
  import opened SqlText
  import opened Conditions
  import opened ConditionReading
  import JsonReading

  // ---------------------------------------------------------------- siblings as OR of AND-runs

  function RunTruth(ts: seq<Truth>): Truth
    requires ts != []
  {
    if |ts| == 1 then ts[0] else AndT(ts[0], RunTruth(ts[1..]))
  }

  /** Length of the first AND-run. */
  function FirstRun(or: seq<bool>): (k: nat)
    requires or != []
    ensures 0 < k <= |or|
    ensures forall i :: 0 < i < k ==> !or[i]
    ensures k < |or| ==> or[k]
    decreases or
  {
    if |or| == 1 || or[1] then 1 else 1 + FirstRun(or[1..])
  }

  function SiblingsTruth(or: seq<bool>, ts: seq<Truth>): Truth
    requires |or| == |ts| > 0
    decreases or
  {
    var k := FirstRun(or);
    if k == |ts| then RunTruth(ts) else OrT(RunTruth(ts[..k]), SiblingsTruth(or[k..], ts[k..]))
  }

  lemma {:induction false} RunReaches(ts: seq<Truth>, level: nat)
    requires ts != []
    ensures RunTruth(ts).Rank() >= level <==> AtLeast(ts, 0, |ts|, level)
  {
    if |ts| > 1 {
      RunReaches(ts[1..], level);
      assert AtLeast(ts, 0, |ts|, level) ==> forall k :: 0 <= k < |ts| - 1 ==> ts[1..][k] == ts[k + 1];
    }
  }

  /** Runs that start at or after a split point are the runs of what follows it. */
  lemma ShiftRun(or: seq<bool>, ts: seq<Truth>, k: nat, i: nat, j: nat, level: nat)
    requires |or| == |ts| && 0 < k < |or| && or[k] && i <= j <= |or| - k
    ensures IsRun(or[k..], i, j) <==> IsRun(or, i + k, j + k)
    ensures AtLeast(ts[k..], i, j, level) <==> AtLeast(ts, i + k, j + k, level)
  {
    assert forall m :: i + k < m < j + k ==> or[m] == or[k..][m - k];
    assert forall m :: i + k <= m < j + k ==> ts[m] == ts[k..][m - k];
  }

  /** Every run is the first one or lies wholly after it. */
  lemma RunPlace(or: seq<bool>, i: int, j: int)
    requires or != [] && IsRun(or, i, j)
    ensures (i == 0 && j == FirstRun(or)) || i >= FirstRun(or)
  {
  }

  lemma LaterRun(or: seq<bool>, ts: seq<Truth>, k: nat, level: nat)
    requires |or| == |ts| && 0 < k < |or| && or[k] && SomeRunReaches(or[k..], ts[k..], level)
    ensures SomeRunReaches(or, ts, level)
  {
    var i, j :| IsRun(or[k..], i, j) && AtLeast(ts[k..], i, j, level);
    ShiftRun(or, ts, k, i, j, level);
  }

  lemma FirstOrLater(or: seq<bool>, ts: seq<Truth>, level: nat)
    requires |or| == |ts| > 0 && SomeRunReaches(or, ts, level)
    ensures var k := FirstRun(or);
            AtLeast(ts, 0, k, level) || (k < |or| && SomeRunReaches(or[k..], ts[k..], level))
  {
    var k := FirstRun(or);
    var i, j :| IsRun(or, i, j) && AtLeast(ts, i, j, level);
    RunPlace(or, i, j);
    if i != 0 {
      ShiftRun(or, ts, k, i - k, j - k, level);
    }
  }

  lemma {:induction false} SiblingsReach(or: seq<bool>, ts: seq<Truth>, level: nat)
    requires |or| == |ts| > 0
    ensures SiblingsTruth(or, ts).Rank() >= level <==> SomeRunReaches(or, ts, level)
    decreases or
  {
    var k := FirstRun(or);
    RunReaches(ts[..k], level);
    assert AtLeast(ts[..k], 0, k, level) <==> AtLeast(ts, 0, k, level);
    assert AtLeast(ts, 0, k, level) ==> SomeRunReaches(or, ts, level) by {
      assert IsRun(or, 0, k);
    }
    hide SomeRunReaches, RunTruth, IsRun;
    if SomeRunReaches(or, ts, level) {
      FirstOrLater(or, ts, level);
    }
    if k == |ts| {
      assert ts[..k] == ts;
    } else {
      SiblingsReach(or[k..], ts[k..], level);
      if SomeRunReaches(or[k..], ts[k..], level) {
        LaterRun(or, ts, k, level);
      }
    }
  }

  /** Splitting off AND-runs from the left computes the declared group truth. */
  lemma SiblingsAreGroup(or: seq<bool>, ts: seq<Truth>)
    requires |or| == |ts| > 0
    ensures SiblingsTruth(or, ts) == GroupTruth(or, ts)
  {
    SiblingsReach(or, ts, 1);
    SiblingsReach(or, ts, 2);
  }

  // ---------------------------------------------------------------- tokens of a list of pieces

  /** Pieces as the compiler writes them: a connective, and a body that can be read and that no trim can shorten. */
  ghost predicate Written(ps: seq<Piece>, db: string)
  {
    forall i :: 0 <= i < |ps| ==> IsLogicalOperator(ps[i].connective) && SafeEnds(ps[i].body) && ReadTokens(ps[i].body, db).Some?
  }

  /** One argument for every placeholder. */
  predicate Bound(ps: seq<Piece>, es: seq<Expr>) { |ps| == |es| && forall i :: 0 <= i < |ps| ==> Holes(es[i]) == |ps[i].args| }

  /** Pieces that read as these expressions. */
  ghost predicate Readable(ps: seq<Piece>, es: seq<Expr>, db: string)
  {
    && |ps| == |es|
    && forall i :: 0 <= i < |ps| ==> IsLogicalOperator(ps[i].connective) && ReadsAs(ps[i].body, es[i], db)
  }

  /** Every piece is joined to the one before it by a connective that the dialect reads as such. */
  predicate Worded(ps: seq<Piece>, db: string)
  {
    forall i :: 0 < i < |ps| ==> SymbolsAreWords(db) || !IsSymbolic(ps[i].connective)
  }

  lemma ReadableIsWritten(ps: seq<Piece>, es: seq<Expr>, db: string)
    requires Readable(ps, es, db)
    ensures Written(ps, db)
  {
    forall i | 0 <= i < |ps| ensures SafeEnds(ps[i].body) && ReadTokens(ps[i].body, db).Some? {
      assert ReadsAs(ps[i].body, es[i], db);
    }
  }

  lemma ReadableParts(ps: seq<Piece>, es: seq<Expr>, db: string, k: nat)
    requires Readable(ps, es, db) && k <= |ps|
    ensures Readable(ps[..k], es[..k], db) && Readable(ps[k..], es[k..], db)
  {
    hide ReadsAs;
  }

  lemma WordedParts(ps: seq<Piece>, db: string, k: nat)
    requires Worded(ps, db) && k <= |ps|
    ensures Worded(ps[..k], db) && Worded(ps[k..], db)
  {
    assert forall i :: 0 <= i < |ps| - k ==> ps[k..][i] == ps[k + i];
  }

  lemma BoundParts(ps: seq<Piece>, es: seq<Expr>, k: nat)
    requires Bound(ps, es) && k <= |ps|
    ensures Bound(ps[..k], es[..k]) && Bound(ps[k..], es[k..])
  {
  }

  function ConnectiveToken(connective: string, db: string): Token { InDialect(Classify(connective), db) }

  function BodyTokens(p: Piece, db: string): seq<Token>
  {
    match ReadTokens(p.body, db)
    case None => []
    case Some(ts) => ts
  }

  function TailTokens(ps: seq<Piece>, db: string): seq<Token>
  {
    if ps == [] then []
    else [ConnectiveToken(ps[0].connective, db)] + BodyTokens(ps[0], db) + TailTokens(ps[1..], db)
  }

  lemma Spelling()
    ensures Classify("&&") == Word("&&") && Classify("||") == Word("||")
    ensures Classify("and") == And && Classify("AND") == And && Classify("or") == Or && Classify("OR") == Or
  {
    assert ToLower("&&") == "&&" && ToLower("||") == "||" && ToLower("and") == "and" && ToLower("or") == "or";
    assert ToLower("AND") == "and" && ToLower("OR") == "or";
  }

  /** A connective is read as such, unless it is a symbol that the dialect reads as an operator. */
  lemma ConnectiveSpoken(connective: string, db: string)
    requires IsLogicalOperator(connective)
    ensures
      ConnectiveToken(connective, db) ==
      if !SymbolsAreWords(db) && IsSymbolic(connective) then Word(connective) else if IsOr(connective) then Or else And
  {
    Spelling();
  }

  lemma ConnectiveReads(connective: string, rest: string, db: string)
    requires IsLogicalOperator(connective) && ReadTokens(rest, db).Some?
    ensures ReadTokens(" " + connective + " " + rest, db) == Some([ConnectiveToken(connective, db)] + ReadTokens(rest, db).value)
  {
    hide Tokenize;
    TokenizeSpacedWord(connective, rest);
    SpokenSum([Classify(connective)], Tokenize(rest).value, db);
    assert Spoken([Classify(connective)], db) == [ConnectiveToken(connective, db)];
  }

  lemma ReadConcat(a: string, b: string, db: string)
    requires ReadTokens(a, db).Some? && ReadTokens(b, db).Some? && StartsFresh(b)
    ensures ReadTokens(a + b, db) == Some(ReadTokens(a, db).value + ReadTokens(b, db).value)
  {
    hide Tokenize;
    TokenizeConcat(a, b);
    SpokenSum(Tokenize(a).value, Tokenize(b).value, db);
  }

  lemma ReadNothing(db: string)
    ensures ReadTokens("", db) == Some([])
  {
    TokenizeNothing();
  }

  lemma {:induction false} TextTokens(ps: seq<Piece>, db: string)
    requires Written(ps, db)
    ensures StartsFresh(TextOf(ps)) && ReadTokens(TextOf(ps), db) == Some(TailTokens(ps, db))
  {
    hide ReadTokens, SafeEnds;
    if ps == [] {
      ReadNothing(db);
    } else {
      var p, rest := ps[0], TextOf(ps[1..]);
      assert ReadTokens(p.body, db) == Some(BodyTokens(p, db));
      TextTokens(ps[1..], db);
      ReadConcat(p.body, rest, db);
      ConnectiveReads(p.connective, p.body + rest, db);
      Reassociate(" ", p.connective, " ", p.body, rest);
      assert [ConnectiveToken(p.connective, db)] + (BodyTokens(p, db) + TailTokens(ps[1..], db)) == TailTokens(ps, db);
    }
  }

  lemma BodyParses(ps: seq<Piece>, es: seq<Expr>, db: string, x: seq<Token>)
    requires ps != [] && Readable(ps, es, db) && EndsPrimary(x)
    ensures ParsePrimary(BodyTokens(ps[0], db) + x) == Some(Parsed(es[0], x))
  {
    hide ReadTokens;
    assert ReadsAs(ps[0].body, es[0], db);
    assert ReadTokens(ps[0].body, db).value + x == BodyTokens(ps[0], db) + x;
  }

  lemma Reassociate(a: string, b: string, c: string, d: string, e: string)
    ensures a + b + c + d + e == a + b + c + (d + e)
  {
  }

  /** The text after the trims: the first body, then every other piece with its connective. */
  lemma StripPieces(ps: seq<Piece>, db: string)
    requires ps != [] && Written(ps, db)
    ensures StripConnectives(TextOf(ps)) == ps[0].body + TextOf(ps[1..])
    ensures SafeEnds(ps[0].body + TextOf(ps[1..]))
  {
    LastIsSafe(ps, db);
    assert IsLogicalOperator(ps[0].connective) && SafeEnds(ps[0].body);
    hide Written, StripConnectives, Survives, IsLogicalOperator;
    var rest := TextOf(ps[1..]);
    var s := ps[0].body + rest;
    assert TextOf(ps) == PieceText(ps[0]) + rest;
    hide TextOf;
    StripExact(ps[0].connective, s);
    Reassociate(" ", ps[0].connective, " ", ps[0].body, rest);
  }

  lemma {:induction false} LastIsSafe(ps: seq<Piece>, db: string)
    requires ps != [] && Written(ps, db)
    ensures var s := ps[0].body + TextOf(ps[1..]); s != "" && Survives(s[|s| - 1])
    decreases |ps|
  {
    assert SafeEnds(ps[0].body) && Written(ps[1..], db);
    hide Survives, Written, ReadTokens;
    if |ps| == 1 {
      assert ps[0].body + TextOf(ps[1..]) == ps[0].body;
    } else {
      LastIsSafe(ps[1..], db);
      var t := ps[1].body + TextOf(ps[1..][1..]);
      assert TextOf(ps[1..]) == " " + ps[1].connective + " " + t;
    }
  }

  /** The tokens of the whole text, trimmed. */
  lemma PiecesTokens(ps: seq<Piece>, db: string)
    requires ps != [] && Written(ps, db)
    ensures
      var text := StripConnectives(TextOf(ps));
      SafeEnds(text) && ReadTokens(text, db) == Some(BodyTokens(ps[0], db) + TailTokens(ps[1..], db))
  {
    StripPieces(ps, db);
    hide ReadTokens, SafeEnds, StripConnectives;
    TextTokens(ps[1..], db);
    ReadConcat(ps[0].body, TextOf(ps[1..]), db);
  }

  // ---------------------------------------------------------------- the expression of a list of pieces

  function ConnectivesOf(ps: seq<Piece>): (r: seq<bool>)
    ensures |r| == |ps|
  {
    seq(|ps|, i requires 0 <= i < |ps| => IsOr(ps[i].connective))
  }

  function RunExpr(es: seq<Expr>): Expr
    requires es != []
  {
    if |es| == 1 then es[0] else Both(es[0], RunExpr(es[1..]))
  }

  function ListExpr(or: seq<bool>, es: seq<Expr>): Expr
    requires |or| == |es| > 0
    decreases or
  {
    var k := FirstRun(or);
    if k == |es| then RunExpr(es) else Either(RunExpr(es[..k]), ListExpr(or[k..], es[k..]))
  }

  lemma ParseAtAnd(ts: seq<Token>, left: Expr, rest: seq<Token>, right: Expr, x: seq<Token>)
    requires ParsePrimary(ts) == Some(Parsed(left, [And] + rest)) && ParseRun(rest) == Some(Parsed(right, x))
    ensures ParseRun(ts) == Some(Parsed(Both(left, right), x))
  {
    assert ([And] + rest)[1..] == rest;
  }

  lemma NoTail(ps: seq<Piece>, db: string)
    requires |ps| == 1
    ensures TailTokens(ps[1..], db) == []
  {
  }

  /** The tokens of a list whose second piece is joined by AND. */
  lemma TokensAtAnd(ps: seq<Piece>, db: string, x: seq<Token>)
    requires |ps| > 1 && ConnectiveToken(ps[1].connective, db) == And
    ensures BodyTokens(ps[0], db) + TailTokens(ps[1..], db) + x
         == BodyTokens(ps[0], db) + ([And] + (BodyTokens(ps[1], db) + TailTokens(ps[1..][1..], db) + x))
  {
    hide BodyTokens;
  }

  lemma ParseLast(ts: seq<Token>, e: Expr, x: seq<Token>)
    requires ParsePrimary(ts) == Some(Parsed(e, x)) && EndsRun(x)
    ensures ParseRun(ts) == Some(Parsed(e, x))
  {
    hide ParsePrimary;
  }

  lemma AndEndsPrimary(rest: seq<Token>)
    ensures EndsPrimary([And] + rest)
  {
  }

  lemma RunEndsPrimary(x: seq<Token>)
    requires EndsRun(x)
    ensures EndsPrimary(x)
  {
  }

  /** Every piece but the first is joined by AND. */
  predicate JoinedByAnd(ps: seq<Piece>, db: string) { forall i :: 0 < i < |ps| ==> ConnectiveToken(ps[i].connective, db) == And }

  lemma JoinedTail(ps: seq<Piece>, db: string)
    requires |ps| > 1 && JoinedByAnd(ps, db)
    ensures ConnectiveToken(ps[1].connective, db) == And && JoinedByAnd(ps[1..], db)
  {
    assert forall i :: 0 < i < |ps[1..]| ==> ps[1..][i] == ps[i + 1];
  }

  lemma LastTokens(p: Piece, db: string, x: seq<Token>)
    ensures BodyTokens(p, db) + TailTokens([p][1..], db) + x == BodyTokens(p, db) + x
  {
    NoTail([p], db);
    assert BodyTokens(p, db) + [] == BodyTokens(p, db);
  }

  lemma ParseRunLast(ps: seq<Piece>, es: seq<Expr>, db: string, x: seq<Token>)
    requires |ps| == 1 && Readable(ps, es, db) && EndsRun(x)
    ensures ParseRun(BodyTokens(ps[0], db) + TailTokens(ps[1..], db) + x) == Some(Parsed(RunExpr(es), x))
  {
    RunEndsPrimary(x);
    BodyParses(ps, es, db, x);
    assert |es| == 1 && ps == [ps[0]];
    hide Readable, BodyTokens, TailTokens, ParsePrimary, ParseRun, EndsRun, EndsPrimary;
    LastTokens(ps[0], db, x);
    ParseLast(BodyTokens(ps[0], db) + x, es[0], x);
  }

  lemma ParseRunStep(ps: seq<Piece>, es: seq<Expr>, db: string, x: seq<Token>)
    requires |ps| > 1 && Readable(ps, es, db) && ConnectiveToken(ps[1].connective, db) == And
    requires ParseRun(BodyTokens(ps[1], db) + TailTokens(ps[1..][1..], db) + x) == Some(Parsed(RunExpr(es[1..]), x))
    ensures ParseRun(BodyTokens(ps[0], db) + TailTokens(ps[1..], db) + x) == Some(Parsed(RunExpr(es), x))
  {
    assert |es| == |ps|;
    hide Readable, BodyTokens, TailTokens, ParsePrimary, ParseRun, ConnectiveToken, EndsPrimary;
    var rest := BodyTokens(ps[1], db) + TailTokens(ps[1..][1..], db) + x;
    TokensAtAnd(ps, db, x);
    AndEndsPrimary(rest);
    BodyParses(ps, es, db, [And] + rest);
    ParseAtAnd(BodyTokens(ps[0], db) + ([And] + rest), es[0], rest, RunExpr(es[1..]), x);
  }

  lemma {:induction false} ParseRunPieces(ps: seq<Piece>, es: seq<Expr>, db: string, x: seq<Token>)
    requires ps != [] && Readable(ps, es, db) && EndsRun(x) && JoinedByAnd(ps, db)
    ensures ParseRun(BodyTokens(ps[0], db) + TailTokens(ps[1..], db) + x) == Some(Parsed(RunExpr(es), x))
    decreases |ps|
  {
    ReadableParts(ps, es, db, 1);
    assert |es| == |ps|;
    hide Readable, JoinedByAnd, BodyTokens, TailTokens, ParseRun, RunExpr, ConnectiveToken, EndsRun;
    if |ps| == 1 {
      ParseRunLast(ps, es, db, x);
    } else {
      assert ps[1..][0] == ps[1];
      JoinedTail(ps, db);
      ParseRunPieces(ps[1..], es[1..], db, x);
      ParseRunStep(ps, es, db, x);
    }
  }

  lemma {:induction false} TailTokensSplit(ps: seq<Piece>, db: string, k: nat)
    requires k <= |ps|
    ensures TailTokens(ps, db) == TailTokens(ps[..k], db) + TailTokens(ps[k..], db)
  {
    hide BodyTokens;
    if k == 0 {
      assert ps[..0] == [] && ps[0..] == ps;
    } else {
      TailTokensSplit(ps[1..], db, k - 1);
      var front, back := ps[..k], ps[k..];
      assert ps[1..][..k - 1] == front[1..] && ps[1..][k - 1..] == back;
      var head := [ConnectiveToken(ps[0].connective, db)] + BodyTokens(ps[0], db);
      assert TailTokens(front, db) == head + TailTokens(front[1..], db);
      assert TailTokens(ps, db) == head + (TailTokens(front[1..], db) + TailTokens(back, db));
    }
  }

  /** When all joins are read as such, the first run is joined by AND and ends at an OR. */
  lemma FirstRunIsAnd(ps: seq<Piece>, es: seq<Expr>, db: string)
    requires ps != [] && Readable(ps, es, db) && Worded(ps, db)
    ensures var k := FirstRun(ConnectivesOf(ps));
            JoinedByAnd(ps[..k], db) && (k < |ps| ==> ConnectiveToken(ps[k].connective, db) == Or)
  {
    hide ReadsAs, ConnectiveToken;
    var or := ConnectivesOf(ps);
    var k := FirstRun(or);
    forall i | 0 < i <= k && i < |ps|
      ensures ConnectiveToken(ps[i].connective, db) == if i == k then Or else And
    {
      ConnectiveSpoken(ps[i].connective, db);
      assert or[i] == (i == k);
    }
  }

  /** The tokens of a list, cut in front of a piece joined by OR. */
  lemma TokensAtOr(ps: seq<Piece>, db: string, k: nat)
    requires 0 < k < |ps| && ConnectiveToken(ps[k].connective, db) == Or
    ensures BodyTokens(ps[0], db) + TailTokens(ps[1..], db)
         == BodyTokens(ps[0], db) + TailTokens(ps[..k][1..], db) + ([Or] + (BodyTokens(ps[k], db) + TailTokens(ps[k..][1..], db)))
  {
    hide BodyTokens;
    TailTokensSplit(ps[1..], db, k - 1);
    assert ps[1..][..k - 1] == ps[..k][1..] && ps[1..][k - 1..] == ps[k..];
    assert TailTokens(ps[k..], db) == [Or] + (BodyTokens(ps[k], db) + TailTokens(ps[k..][1..], db));
  }

  lemma ParseAtOr(ts: seq<Token>, left: Expr, rest: seq<Token>, right: Expr)
    requires ParseRun(ts) == Some(Parsed(left, [Or] + rest)) && ParseExpr(rest) == Some(Parsed(right, []))
    ensures ParseExpr(ts) == Some(Parsed(Either(left, right), []))
  {
    assert ([Or] + rest)[1..] == rest;
  }

  lemma ConnectivesTail(ps: seq<Piece>, k: nat)
    requires k <= |ps|
    ensures ConnectivesOf(ps[k..]) == ConnectivesOf(ps)[k..]
  {
  }

  lemma {:induction false} ParsePieces(ps: seq<Piece>, es: seq<Expr>, db: string)
    requires ps != [] && Readable(ps, es, db) && Worded(ps, db)
    ensures ParseExpr(BodyTokens(ps[0], db) + TailTokens(ps[1..], db)) == Some(Parsed(ListExpr(ConnectivesOf(ps), es), []))
    decreases |ps|
  {
    var or := ConnectivesOf(ps);
    var k := FirstRun(or);
    FirstRunIsAnd(ps, es, db);
    ReadableParts(ps, es, db, k);
    WordedParts(ps, db, k);
    assert |es| == |ps|;
    hide Readable, Worded, JoinedByAnd, BodyTokens, TailTokens, RunExpr, ConnectiveToken, ConnectivesOf, FirstRun;
    if k == |ps| {
      assert ps[..k] == ps;
      ParseOneRun(ps, es, db);
    } else {
      var rest := BodyTokens(ps[k], db) + TailTokens(ps[k..][1..], db);
      ConnectivesTail(ps, k);
      ParsePieces(ps[k..], es[k..], db);
      hide ParseExpr;
      TokensAtOr(ps, db, k);
      ParseRunPieces(ps[..k], es[..k], db, [Or] + rest);
      ParseAtOr(BodyTokens(ps[0], db) + TailTokens(ps[1..], db), RunExpr(es[..k]), rest, ListExpr(or[k..], es[k..]));
    }
  }

  lemma ParseOneRun(ps: seq<Piece>, es: seq<Expr>, db: string)
    requires ps != [] && Readable(ps, es, db) && JoinedByAnd(ps, db)
    ensures ParseExpr(BodyTokens(ps[0], db) + TailTokens(ps[1..], db)) == Some(Parsed(RunExpr(es), []))
  {
    hide BodyTokens, TailTokens, RunExpr, Readable, ParseRun;
    ParseRunPieces(ps, es, db, []);
    var ts := BodyTokens(ps[0], db) + TailTokens(ps[1..], db);
    assert ts + [] == ts;
  }

  // ---------------------------------------------------------------- its truth, arguments bound by position

  ghost function TruthsOf(ps: seq<Piece>, es: seq<Expr>, row: Row, sem: Semantics): (r: seq<Truth>)
    requires Bound(ps, es)
    ensures |r| == |ps|
  {
    seq(|ps|, i requires 0 <= i < |ps| => EvalExpr(es[i], ps[i].args, row, sem))
  }

  lemma {:induction false} ArgsSplit(ps: seq<Piece>, k: nat)
    requires k <= |ps|
    ensures ArgsOf(ps) == ArgsOf(ps[..k]) + ArgsOf(ps[k..])
  {
    if k == 0 {
      assert ps[..0] == [] && ps[0..] == ps;
    } else {
      ArgsSplit(ps[1..], k - 1);
      assert ps[1..][..k - 1] == ps[..k][1..] && ps[1..][k - 1..] == ps[k..];
    }
  }

  lemma {:induction false} RunMeaning(ps: seq<Piece>, es: seq<Expr>, row: Row, sem: Semantics)
    requires ps != [] && Bound(ps, es)
    ensures Holes(RunExpr(es)) == |ArgsOf(ps)|
    ensures EvalExpr(RunExpr(es), ArgsOf(ps), row, sem) == RunTruth(TruthsOf(ps, es, row, sem))
  {
    var args := ArgsOf(ps);
    if |ps| == 1 {
      assert args == ps[0].args;
    } else {
      BoundParts(ps, es, 1);
      RunMeaning(ps[1..], es[1..], row, sem);
      var n := Holes(es[0]);
      assert args[..n] == ps[0].args && args[n..] == ArgsOf(ps[1..]);
      assert TruthsOf(ps, es, row, sem)[1..] == TruthsOf(ps[1..], es[1..], row, sem);
    }
  }

  lemma OrMeaning(l: Expr, r: Expr, largs: seq<Value>, rargs: seq<Value>, row: Row, sem: Semantics)
    requires Holes(l) == |largs| && Holes(r) == |rargs|
    ensures EvalExpr(Either(l, r), largs + rargs, row, sem) == OrT(EvalExpr(l, largs, row, sem), EvalExpr(r, rargs, row, sem))
  {
    assert (largs + rargs)[..Holes(l)] == largs && (largs + rargs)[Holes(l)..] == rargs;
  }

  lemma TruthsSplit(ps: seq<Piece>, es: seq<Expr>, k: nat, row: Row, sem: Semantics)
    requires Bound(ps, es) && k <= |ps|
    ensures TruthsOf(ps, es, row, sem)[..k] == TruthsOf(ps[..k], es[..k], row, sem)
    ensures TruthsOf(ps, es, row, sem)[k..] == TruthsOf(ps[k..], es[k..], row, sem)
  {
    hide EvalExpr;
  }

  lemma {:induction false} ListMeaning(ps: seq<Piece>, es: seq<Expr>, row: Row, sem: Semantics)
    requires ps != [] && Bound(ps, es)
    ensures Holes(ListExpr(ConnectivesOf(ps), es)) == |ArgsOf(ps)|
    ensures EvalExpr(ListExpr(ConnectivesOf(ps), es), ArgsOf(ps), row, sem)
         == SiblingsTruth(ConnectivesOf(ps), TruthsOf(ps, es, row, sem))
    decreases |ps|
  {
    hide EvalExpr, TruthsOf, ArgsOf, RunExpr, RunTruth;
    var or := ConnectivesOf(ps);
    var k := FirstRun(or);
    if k == |ps| {
      RunMeaning(ps, es, row, sem);
    } else {
      assert ConnectivesOf(ps[k..]) == or[k..];
      hide ConnectivesOf;
      BoundParts(ps, es, k);
      RunMeaning(ps[..k], es[..k], row, sem);
      ListMeaning(ps[k..], es[k..], row, sem);
      ArgsSplit(ps, k);
      TruthsSplit(ps, es, k, row, sem);
      OrMeaning(RunExpr(es[..k]), ListExpr(or[k..], es[k..]), ArgsOf(ps[..k]), ArgsOf(ps[k..]), row, sem);
    }
  }

  /**
   The expression of a list of pieces has the truth of their group; and when every join is one that the
   dialect reads as such, it is what the text of the pieces, trimmed, reads as.
   */
  lemma PiecesMeaning(ps: seq<Piece>, es: seq<Expr>, db: string)
    requires ps != [] && Bound(ps, es)
    ensures
      var e := ListExpr(ConnectivesOf(ps), es);
      && Holes(e) == |ArgsOf(ps)|
      && (forall row, sem :: EvalExpr(e, ArgsOf(ps), row, sem) == GroupTruth(ConnectivesOf(ps), TruthsOf(ps, es, row, sem)))
      && (Readable(ps, es, db) && Worded(ps, db) ==> ParseText(StripConnectives(TextOf(ps)), db) == Some(e))
  {
    var e := ListExpr(ConnectivesOf(ps), es);
    ListMeaning(ps, es, map[], AnySemantics());
    forall row, sem
      ensures EvalExpr(e, ArgsOf(ps), row, sem) == GroupTruth(ConnectivesOf(ps), TruthsOf(ps, es, row, sem))
    {
      ListMeaning(ps, es, row, sem);
      SiblingsAreGroup(ConnectivesOf(ps), TruthsOf(ps, es, row, sem));
    }
    if Readable(ps, es, db) && Worded(ps, db) {
      hide ReadTokens, EvalExpr, GroupTruth;
      ReadableIsWritten(ps, es, db);
      PiecesTokens(ps, db);
      ParsePieces(ps, es, db);
    }
  }

  function AnySemantics(): Semantics { Semantics((_, _, _) => Unknown, (_, _, _) => Unknown) }

  // ---------------------------------------------------------------- counting placeholders and connectives

  /** Joins that the dialect does not read as connectives. */
  function Unread(ps: seq<Piece>, db: string): nat
  {
    if ps == [] then 0 else (if !SymbolsAreWords(db) && IsSymbolic(ps[0].connective) then 1 else 0) + Unread(ps[1..], db)
  }

  function HolesOf(ps: seq<Piece>, db: string): nat
  {
    if ps == [] then 0 else HolesIn(BodyTokens(ps[0], db)) + HolesOf(ps[1..], db)
  }

  function LinksOf(ps: seq<Piece>, db: string): nat
  {
    if ps == [] then 0 else LinksIn(BodyTokens(ps[0], db)) + LinksOf(ps[1..], db)
  }

  /** In the tokens behind the first piece: the bodies' placeholders and connectives, and the joins that are read. */
  lemma {:induction false} TailCounts(ps: seq<Piece>, db: string)
    requires forall i :: 0 <= i < |ps| ==> IsLogicalOperator(ps[i].connective)
    ensures HolesIn(TailTokens(ps, db)) == HolesOf(ps, db)
    ensures LinksIn(TailTokens(ps, db)) + Unread(ps, db) == LinksOf(ps, db) + |ps|
  {
    hide BodyTokens, ConnectiveToken, IsLogicalOperator;
    if ps != [] {
      TailCounts(ps[1..], db);
      var c, body, tail := ConnectiveToken(ps[0].connective, db), BodyTokens(ps[0], db), TailTokens(ps[1..], db);
      ConnectiveSpoken(ps[0].connective, db);
      assert TailTokens(ps, db) == [c] + (body + tail);
      HolesInConcat([c], body + tail);
      HolesInConcat(body, tail);
      LinksInConcat([c], body + tail);
      LinksInConcat(body, tail);
      OneToken(c);
    }
  }

  /** In the tokens of all pieces. */
  lemma PiecesCounts(ps: seq<Piece>, db: string)
    requires ps != [] && forall i :: 0 <= i < |ps| ==> IsLogicalOperator(ps[i].connective)
    ensures
      var ts := BodyTokens(ps[0], db) + TailTokens(ps[1..], db);
      HolesIn(ts) == HolesOf(ps, db) && LinksIn(ts) + Unread(ps[1..], db) + 1 == LinksOf(ps, db) + |ps|
  {
    assert forall i :: 0 <= i < |ps[1..]| ==> ps[1..][i] == ps[i + 1];
    hide BodyTokens, TailTokens, IsLogicalOperator;
    TailCounts(ps[1..], db);
    HolesInConcat(BodyTokens(ps[0], db), TailTokens(ps[1..], db));
    LinksInConcat(BodyTokens(ps[0], db), TailTokens(ps[1..], db));
  }

  lemma OneToken(t: Token)
    ensures HolesIn([t]) == (if t.Hole? then 1 else 0) && LinksIn([t]) == (if t.And? || t.Or? then 1 else 0)
  {
    assert [t][1..] == [];
  }

  function SumLinks(es: seq<Expr>): nat { if es == [] then 0 else Links(es[0]) + SumLinks(es[1..]) }

  lemma {:induction false} SumLinksSplit(es: seq<Expr>, k: nat)
    requires k <= |es|
    ensures SumLinks(es) == SumLinks(es[..k]) + SumLinks(es[k..])
  {
    if k == 0 {
      assert es[..0] == [] && es[0..] == es;
    } else {
      SumLinksSplit(es[1..], k - 1);
      assert es[1..][..k - 1] == es[..k][1..] && es[1..][k - 1..] == es[k..];
    }
  }

  lemma {:induction false} RunLinks(es: seq<Expr>)
    requires es != []
    ensures Links(RunExpr(es)) + 1 == SumLinks(es) + |es|
  {
    if |es| > 1 {
      RunLinks(es[1..]);
    }
  }

  /** The expression of n siblings has n - 1 connectives of its own. */
  lemma {:induction false} ListLinks(or: seq<bool>, es: seq<Expr>)
    requires |or| == |es| > 0
    ensures Links(ListExpr(or, es)) + 1 == SumLinks(es) + |es|
    decreases or
  {
    var k := FirstRun(or);
    hide RunExpr, FirstRun;
    if k == |es| {
      RunLinks(es);
    } else {
      RunLinks(es[..k]);
      ListLinks(or[k..], es[k..]);
      SumLinksSplit(es, k);
    }
  }
}

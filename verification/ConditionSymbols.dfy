/**
 What the symbols `&&` and `||` do in a dialect that does not read them as connectives: siblings joined by
 them become one atom. For lists of single comparisons over different columns the truth is kept exactly
 when no symbol joins two of them.
 */
module ConditionSymbols {
  import opened Text
  import opened SqlText
  import opened Conditions
  import opened ConditionReading
  import opened ConditionMeaning
  import opened ConditionTheorems
  import opened ConditionLeaves

  // ---------------------------------------------------------------- pieces glued together

  function Merge(p: Piece, q: Piece): Piece { Piece(p.connective, p.body + " " + q.connective + " " + q.body, p.args + q.args) }

  /** Pieces joined by symbols become one. */
  function Glue(ps: seq<Piece>): (r: seq<Piece>)
    ensures ps != [] ==> r != [] && r[0].connective == ps[0].connective
  {
    if |ps| <= 1 then ps
    else
      var rest := Glue(ps[1..]);
      if IsSymbolic(ps[1].connective) then [Merge(ps[0], rest[0])] + rest[1..] else [ps[0]] + rest
  }

  /** What is read of a list of atoms, glued in the same way. */
  function GlueTokens(ps: seq<Piece>, db: string): (r: seq<seq<Token>>)
    ensures |r| == |Glue(ps)|
  {
    if |ps| <= 1 then (if ps == [] then [] else [BodyTokens(ps[0], db)])
    else
      var rest := GlueTokens(ps[1..], db);
      if IsSymbolic(ps[1].connective) then [BodyTokens(ps[0], db) + [Word(ps[1].connective)] + rest[0]] + rest[1..]
      else [BodyTokens(ps[0], db)] + rest
  }

  lemma {:induction false} GlueKeepsText(ps: seq<Piece>)
    ensures TextOf(Glue(ps)) == TextOf(ps) && ArgsOf(Glue(ps)) == ArgsOf(ps)
  {
    if |ps| > 1 {
      var rest := Glue(ps[1..]);
      GlueKeepsText(ps[1..]);
      assert rest == [rest[0]] + rest[1..];
      if IsSymbolic(ps[1].connective) {
        var g := [Merge(ps[0], rest[0])] + rest[1..];
        assert g[1..] == rest[1..];
        MergedText(ps[0], rest[0], TextOf(rest[1..]));
        assert (ps[0].args + rest[0].args) + ArgsOf(rest[1..]) == ps[0].args + (rest[0].args + ArgsOf(rest[1..]));
      } else {
        assert ([ps[0]] + rest)[1..] == rest;
      }
    }
  }

  lemma MergedText(p: Piece, q: Piece, rest: string)
    ensures PieceText(Merge(p, q)) + rest == PieceText(p) + (PieceText(q) + rest)
  {
    assert PieceText(Merge(p, q)) == PieceText(p) + PieceText(q);
  }

  /** A text that reads as these tokens, none of which is a parenthesis or a connective. */
  ghost predicate Flat(p: Piece, ts: seq<Token>, db: string)
  {
    && IsLogicalOperator(p.connective) && SafeEnds(p.body) && ReadTokens(p.body, db) == Some(ts)
    && ts != [] && ts[0].Quoted? && (forall i :: 0 <= i < |ts| ==> IsPlain(ts[i])) && HolesIn(ts) == |p.args|
  }

  lemma MergeFlat(p: Piece, q: Piece, a: seq<Token>, b: seq<Token>, db: string)
    requires Flat(p, a, db) && Flat(q, b, db) && !SymbolsAreWords(db) && IsSymbolic(q.connective)
    ensures Flat(Merge(p, q), a + [Word(q.connective)] + b, db)
  {
    hide ReadTokens;
    var tail := " " + q.connective + " " + q.body;
    ConnectiveReads(q.connective, q.body, db);
    ConnectiveSpoken(q.connective, db);
    ReadConcat(p.body, tail, db);
    assert Merge(p, q).body == p.body + tail;
    assert a + ([Word(q.connective)] + b) == a + [Word(q.connective)] + b;
    HolesInConcat(a + [Word(q.connective)], b);
    HolesInConcat(a, [Word(q.connective)]);
    OneToken(Word(q.connective));
  }

  lemma FlatReads(p: Piece, ts: seq<Token>, db: string)
    requires Flat(p, ts, db)
    ensures ReadsAs(p.body, Atom(ts), db)
  {
    hide ReadTokens;
    PlainTokens(ts, 0, []);
    assert ts + [] == ts;
    AtomReads(p.body, ts, db);
  }

  ghost predicate AllFlat(ps: seq<Piece>, tss: seq<seq<Token>>, db: string)
  {
    |ps| == |tss| && forall i :: 0 <= i < |ps| ==> Flat(ps[i], tss[i], db)
  }

  lemma {:induction false} GlueIsFlat(ps: seq<Piece>, db: string)
    requires !SymbolsAreWords(db) && forall i :: 0 <= i < |ps| ==> Flat(ps[i], BodyTokens(ps[i], db), db)
    ensures AllFlat(Glue(ps), GlueTokens(ps, db), db)
  {
    hide Flat, BodyTokens, Merge;
    if |ps| > 1 {
      var rest, tss := Glue(ps[1..]), GlueTokens(ps[1..], db);
      GlueIsFlat(ps[1..], db);
      if IsSymbolic(ps[1].connective) {
        MergeFlat(ps[0], rest[0], BodyTokens(ps[0], db), tss[0], db);
      }
    }
  }

  /** What is left to join the glued pieces are words. */
  lemma {:induction false} GlueLeavesWords(ps: seq<Piece>)
    ensures forall i :: 0 < i < |Glue(ps)| ==> !IsSymbolic(Glue(ps)[i].connective)
  {
    hide Merge;
    if |ps| > 1 {
      GlueLeavesWords(ps[1..]);
    }
  }

  function Atoms(tss: seq<seq<Token>>): (r: seq<Expr>)
    ensures |r| == |tss| && forall i :: 0 <= i < |r| ==> r[i] == Atom(tss[i])
  {
    seq(|tss|, i requires 0 <= i < |tss| => Atom(tss[i]))
  }

  /** The text of flat pieces reads as the list of the glued atoms. */
  lemma GluedMeaning(ps: seq<Piece>, db: string)
    requires ps != [] && !SymbolsAreWords(db) && forall i :: 0 <= i < |ps| ==> Flat(ps[i], BodyTokens(ps[i], db), db)
    ensures
      var g, es := Glue(ps), Atoms(GlueTokens(ps, db));
      && Bound(g, es) && ParseText(StripConnectives(TextOf(ps)), db) == Some(ListExpr(ConnectivesOf(g), es))
      && Holes(ListExpr(ConnectivesOf(g), es)) == |ArgsOf(ps)|
      && forall row, sem :: EvalExpr(ListExpr(ConnectivesOf(g), es), ArgsOf(ps), row, sem) == GroupTruth(ConnectivesOf(g), TruthsOf(g, es, row, sem))
  {
    var g, tss := Glue(ps), GlueTokens(ps, db);
    GlueKeepsText(ps);
    GlueLeavesWords(ps);
    GlueIsFlat(ps, db);
    hide Glue, GlueTokens, BodyTokens, ReadsAs, EvalExpr, GroupTruth;
    forall i | 0 <= i < |g| ensures ReadsAs(g[i].body, Atom(tss[i]), db) && IsLogicalOperator(g[i].connective) && Holes(Atom(tss[i])) == |g[i].args| {
      FlatReads(g[i], tss[i], db);
    }
    PiecesMeaning(g, Atoms(tss), db);
  }

  // ---------------------------------------------------------------- truth by runs

  datatype Runs = Runs(first: Truth, rest: Truth)

  /** The truth of the first AND-run of siblings, and that of the others. */
  function RunsOf(or: seq<bool>, ts: seq<Truth>): Runs
    requires |or| == |ts| > 0
    decreases or
  {
    if |ts| == 1 then Runs(ts[0], False)
    else
      var r := RunsOf(or[1..], ts[1..]);
      if or[1] then Runs(ts[0], OrT(r.first, r.rest)) else Runs(AndT(ts[0], r.first), r.rest)
  }

  lemma {:induction false} RunsAreGroup(or: seq<bool>, ts: seq<Truth>)
    requires |or| == |ts| > 0
    ensures GroupTruth(or, ts) == OrT(RunsOf(or, ts).first, RunsOf(or, ts).rest)
  {
    SiblingsAreGroup(or, ts);
    RunsAreSiblings(or, ts);
  }

  lemma {:induction false} RunsAreSiblings(or: seq<bool>, ts: seq<Truth>)
    requires |or| == |ts| > 0
    ensures
      var k := FirstRun(or);
      && RunsOf(or, ts).first == RunTruth(ts[..k])
      && RunsOf(or, ts).rest == if k == |ts| then False else SiblingsTruth(or[k..], ts[k..])
    ensures SiblingsTruth(or, ts) == OrT(RunsOf(or, ts).first, RunsOf(or, ts).rest)
    decreases or
  {
    var k := FirstRun(or);
    if |ts| == 1 {
      assert ts[..1] == ts;
    } else {
      RunsAreSiblings(or[1..], ts[1..]);
      if or[1] {
        assert ts[..1] == [ts[0]];
      } else {
        assert ts[..k][1..] == ts[1..][..k - 1] && ts[k..] == ts[1..][k - 1..] && or[k..] == or[1..][k - 1..];
        assert k == |ts| ==> ts[..k] == ts;
      }
    }
  }

  /** The first flag does not matter, and a false first sibling makes the first run false. */
  lemma RunsOfFalse(or: seq<bool>, ts: seq<Truth>, o: bool)
    requires |or| == |ts| > 0
    ensures RunsOf([o] + or[1..], [False] + ts[1..]) == Runs(False, RunsOf(or, ts).rest)
  {
    assert ([o] + or[1..])[1..] == or[1..] && ([False] + ts[1..])[1..] == ts[1..];
  }

  lemma RunsOfCons(o: bool, or: seq<bool>, t: Truth, ts: seq<Truth>)
    requires |or| == |ts| > 0
    ensures
      var r := RunsOf(or, ts);
      RunsOf([o] + or, [t] + ts) == if or[0] then Runs(t, OrT(r.first, r.rest)) else Runs(AndT(t, r.first), r.rest)
  {
    assert ([o] + or)[1..] == or && ([t] + ts)[1..] == ts;
  }

  // ---------------------------------------------------------------- the truth of glued siblings

  predicate Glued(ps: seq<Piece>, i: nat)
    requires i < |ps|
  {
    (i > 0 && IsSymbolic(ps[i].connective)) || (i + 1 < |ps| && IsSymbolic(ps[i + 1].connective))
  }

  /** Siblings joined to the one before them by a word for OR. */
  function WordOrs(ps: seq<Piece>): (r: seq<bool>)
    ensures |r| == |ps|
  {
    seq(|ps|, i requires 0 <= i < |ps| => IsOr(ps[i].connective) && !IsSymbolic(ps[i].connective))
  }

  /** What is left of the siblings' truths when glued ones are false. */
  function Loose(ps: seq<Piece>, ts: seq<Truth>): (r: seq<Truth>)
    requires |ts| == |ps|
    ensures |r| == |ps|
  {
    seq(|ps|, i requires 0 <= i < |ps| => if Glued(ps, i) then False else ts[i])
  }

  /** The tokens of one comparison, with or without more behind them. */
  predicate StartsComparison(ts: seq<Token>) { |ts| >= 3 && ts[0].Quoted? && ts[1].Word? && ts[2].Hole? }

  lemma {:induction false} GlueShape(ps: seq<Piece>, db: string)
    requires forall i :: 0 <= i < |ps| ==> StartsComparison(BodyTokens(ps[i], db))
    ensures forall i :: 0 <= i < |Glue(ps)| ==> StartsComparison(GlueTokens(ps, db)[i])
    ensures |ps| > 1 && IsSymbolic(ps[1].connective) ==> |GlueTokens(ps, db)[0]| > 3
  {
    hide BodyTokens;
    if |ps| > 1 {
      GlueShape(ps[1..], db);
    }
  }

  ghost predicate RefusesNative(sem: Semantics) { forall ts, args, row :: sem.native(ts, args, row) == False }

  /** More than one comparison in one atom is not the reader's business but the database's. */
  lemma LongAtom(ts: seq<Token>, args: seq<Value>, row: Row, sem: Semantics)
    requires StartsComparison(ts) && |ts| > 3 && RefusesNative(sem)
    ensures EvalAtom(ts, args, row, sem) == False
  {
    assert ts[2..][0] == Hole && HoleList(|args|)[0] == LParen;
  }

  lemma LooseTail(ps: seq<Piece>, ts: seq<Truth>)
    requires |ts| == |ps| > 1
    ensures WordOrs(ps)[1..] == WordOrs(ps[1..])
    ensures Loose(ps, ts)[1..] == if IsSymbolic(ps[1].connective) then [False] + Loose(ps[1..], ts[1..])[1..] else Loose(ps[1..], ts[1..])
    ensures Loose(ps, ts)[0] == if IsSymbolic(ps[1].connective) then False else ts[0]
  {
    var a := Loose(ps, ts)[1..];
    var b := if IsSymbolic(ps[1].connective) then [False] + Loose(ps[1..], ts[1..])[1..] else Loose(ps[1..], ts[1..]);
    forall i | 0 <= i < |a| ensures a[i] == b[i] {
      assert i > 0 ==> Glued(ps, i + 1) == Glued(ps[1..], i);
    }
  }

  function AtomTruths(ps: seq<Piece>, tss: seq<seq<Token>>, row: Row, sem: Semantics): (r: seq<Truth>)
    requires |ps| == |tss|
    ensures |r| == |ps|
  {
    seq(|ps|, i requires 0 <= i < |ps| => EvalAtom(tss[i], ps[i].args, row, sem))
  }

  function GluedTruths(ps: seq<Piece>, db: string, row: Row, sem: Semantics): (r: seq<Truth>)
    ensures |r| == |Glue(ps)|
  {
    AtomTruths(Glue(ps), GlueTokens(ps, db), row, sem)
  }

  lemma TruthsAreGlued(ps: seq<Piece>, db: string, row: Row, sem: Semantics)
    requires Bound(Glue(ps), Atoms(GlueTokens(ps, db)))
    ensures TruthsOf(Glue(ps), Atoms(GlueTokens(ps, db)), row, sem) == GluedTruths(ps, db, row, sem)
  {
    hide Glue, GlueTokens, EvalAtom;
    assert forall i :: 0 <= i < |Glue(ps)| ==> Holes(Atoms(GlueTokens(ps, db))[i]) == |Glue(ps)[i].args|;
  }

  function GluedOrs(ps: seq<Piece>): (r: seq<bool>)
    requires ps != []
    ensures |r| == |Glue(ps)| > 0 && r[0] == IsOr(ps[0].connective)
  {
    ConnectivesOf(Glue(ps))
  }

  /** Where a symbol joins the second sibling, what follows the first glued one is as without the first. */
  lemma SymbolGlue(ps: seq<Piece>, db: string)
    requires |ps| > 1 && IsSymbolic(ps[1].connective)
    ensures |Glue(ps)| == |Glue(ps[1..])| && Glue(ps)[1..] == Glue(ps[1..])[1..] && GlueTokens(ps, db)[1..] == GlueTokens(ps[1..], db)[1..]
  {
    hide BodyTokens, Merge;
  }

  lemma SplitHead<T>(a: seq<T>, b: seq<T>)
    requires |a| == |b| > 0 && a[1..] == b[1..]
    ensures a == [a[0]] + b[1..]
  {
    assert a == [a[0]] + a[1..];
  }

  lemma TruthsTail(ps: seq<Piece>, tss: seq<seq<Token>>, row: Row, sem: Semantics)
    requires |ps| == |tss| > 0
    ensures AtomTruths(ps, tss, row, sem)[1..] == AtomTruths(ps[1..], tss[1..], row, sem)
  {
    hide EvalAtom;
  }

  /** A sibling joined by a symbol makes the first glued one the database's business. */
  lemma SymbolHead(ps: seq<Piece>, db: string, row: Row, sem: Semantics)
    requires |ps| > 1 && IsSymbolic(ps[1].connective) && RefusesNative(sem)
    requires forall i :: 0 <= i < |ps| ==> StartsComparison(BodyTokens(ps[i], db))
    ensures GluedTruths(ps, db, row, sem)[0] == False
  {
    GlueShape(ps, db);
    hide BodyTokens, EvalAtom, StartsComparison, Glue, GlueTokens, IsSymbolic;
    LongAtom(GlueTokens(ps, db)[0], Glue(ps)[0].args, row, sem);
  }

  lemma SymbolTruths(ps: seq<Piece>, db: string, row: Row, sem: Semantics)
    requires |ps| > 1 && IsSymbolic(ps[1].connective) && GluedTruths(ps, db, row, sem)[0] == False
    ensures GluedTruths(ps, db, row, sem) == [False] + GluedTruths(ps[1..], db, row, sem)[1..]
  {
    SymbolGlue(ps, db);
    hide Glue, GlueTokens, IsSymbolic, AtomTruths;
    TruthsTail(Glue(ps), GlueTokens(ps, db), row, sem);
    TruthsTail(Glue(ps[1..]), GlueTokens(ps[1..], db), row, sem);
    SplitHead(GluedTruths(ps, db, row, sem), GluedTruths(ps[1..], db, row, sem));
  }

  lemma SymbolOrs(ps: seq<Piece>, db: string)
    requires |ps| > 1 && IsSymbolic(ps[1].connective)
    ensures GluedOrs(ps) == [GluedOrs(ps)[0]] + GluedOrs(ps[1..])[1..]
  {
    SymbolGlue(ps, db);
    hide Glue, IsSymbolic, ConnectivesOf;
    ConnectivesTail(Glue(ps), 1);
    ConnectivesTail(Glue(ps[1..]), 1);
    SplitHead(GluedOrs(ps), GluedOrs(ps[1..]));
  }

  lemma WordGlue(ps: seq<Piece>, db: string)
    requires |ps| > 1 && !IsSymbolic(ps[1].connective)
    ensures Glue(ps) == [ps[0]] + Glue(ps[1..]) && GlueTokens(ps, db) == [BodyTokens(ps[0], db)] + GlueTokens(ps[1..], db)
  {
    hide BodyTokens;
  }

  lemma OneMore(p: Piece, ps: seq<Piece>, ts: seq<Token>, tss: seq<seq<Token>>, row: Row, sem: Semantics)
    requires |ps| == |tss|
    ensures AtomTruths([p] + ps, [ts] + tss, row, sem) == [EvalAtom(ts, p.args, row, sem)] + AtomTruths(ps, tss, row, sem)
    ensures ConnectivesOf([p] + ps) == [IsOr(p.connective)] + ConnectivesOf(ps)
  {
    hide EvalAtom, IsOr;
  }

  /** A sibling joined by a word stays as it is. */
  lemma WordStep(ps: seq<Piece>, db: string, row: Row, sem: Semantics)
    requires |ps| > 1 && !IsSymbolic(ps[1].connective)
    ensures GluedTruths(ps, db, row, sem) == [EvalAtom(BodyTokens(ps[0], db), ps[0].args, row, sem)] + GluedTruths(ps[1..], db, row, sem)
    ensures GluedOrs(ps) == [GluedOrs(ps)[0]] + GluedOrs(ps[1..])
  {
    WordGlue(ps, db);
    hide Glue, GlueTokens, BodyTokens, EvalAtom, AtomTruths, ConnectivesOf;
    OneMore(ps[0], Glue(ps[1..]), BodyTokens(ps[0], db), GlueTokens(ps[1..], db), row, sem);
  }

  lemma SymbolFirst(o: bool, or: seq<bool>, us: seq<Truth>, w: bool, next: seq<bool>, rest: seq<Truth>)
    requires |or| == |us| > 0 && |next| == |rest| > 0 && !next[0] && RunsOf(or, us) == RunsOf(next, rest)
    ensures RunsOf([o] + or[1..], [False] + us[1..]) == RunsOf([w] + next, [False] + ([False] + rest[1..]))
  {
    hide RunsOf;
    RunsOfFalse(or, us, o);
    RunsOfFalse(next, rest, next[0]);
    assert next == [next[0]] + next[1..];
    RunsOfCons(w, next, False, [False] + rest[1..]);
  }

  lemma WordFirst(o: bool, or: seq<bool>, t: Truth, us: seq<Truth>, w: bool, next: seq<bool>, rest: seq<Truth>)
    requires |or| == |us| > 0 && |next| == |rest| > 0 && or[0] == next[0] && RunsOf(or, us) == RunsOf(next, rest)
    ensures RunsOf([o] + or, [t] + us) == RunsOf([w] + next, [t] + rest)
  {
    hide RunsOf;
    RunsOfCons(o, or, t, us);
    RunsOfCons(w, next, t, rest);
  }

  /** One more sibling in front of glued siblings and of their list. */
  lemma GluedRunsStep(ps: seq<Piece>, db: string, ts: seq<Truth>, row: Row, sem: Semantics)
    requires |ps| > 1 && |ts| == |ps| && EvalAtom(BodyTokens(ps[0], db), ps[0].args, row, sem) == ts[0]
    requires IsSymbolic(ps[1].connective) ==> GluedTruths(ps, db, row, sem)[0] == False
    requires RunsOf(GluedOrs(ps[1..]), GluedTruths(ps[1..], db, row, sem)) == RunsOf(WordOrs(ps[1..]), Loose(ps[1..], ts[1..]))
    ensures RunsOf(GluedOrs(ps), GluedTruths(ps, db, row, sem)) == RunsOf(WordOrs(ps), Loose(ps, ts))
  {
    LooseTail(ps, ts);
    hide EvalAtom, BodyTokens, RunsOf, GluedTruths, GluedOrs, Glue, GlueTokens, Loose, IsSymbolic;
    var or, us, rest := GluedOrs(ps[1..]), GluedTruths(ps[1..], db, row, sem), Loose(ps[1..], ts[1..]);
    var words, loose := WordOrs(ps), Loose(ps, ts);
    assert words == [words[0]] + WordOrs(ps[1..]) && loose == [loose[0]] + loose[1..];
    if IsSymbolic(ps[1].connective) {
      SymbolTruths(ps, db, row, sem);
      SymbolOrs(ps, db);
      SymbolFirst(GluedOrs(ps)[0], or, us, words[0], WordOrs(ps[1..]), rest);
    } else {
      WordStep(ps, db, row, sem);
      WordFirst(GluedOrs(ps)[0], or, ts[0], us, words[0], WordOrs(ps[1..]), rest);
    }
  }

  /** The glued siblings have the truth of their list with every glued one false. */
  lemma {:induction false} GluedRuns(ps: seq<Piece>, db: string, ts: seq<Truth>, row: Row, sem: Semantics)
    requires ps != [] && |ts| == |ps| && RefusesNative(sem)
    requires forall i :: 0 <= i < |ps| ==> StartsComparison(BodyTokens(ps[i], db))
    requires forall i :: 0 <= i < |ps| ==> EvalAtom(BodyTokens(ps[i], db), ps[i].args, row, sem) == ts[i]
    ensures RunsOf(GluedOrs(ps), GluedTruths(ps, db, row, sem)) == RunsOf(WordOrs(ps), Loose(ps, ts))
  {
    if |ps| == 1 {
      assert Loose(ps, ts) == [ts[0]];
    } else {
      hide EvalAtom, BodyTokens, RunsOf, GluedTruths, GluedOrs, Loose, StartsComparison, IsSymbolic, WordOrs;
      GluedRuns(ps[1..], db, ts[1..], row, sem);
      if IsSymbolic(ps[1].connective) {
        SymbolHead(ps, db, row, sem);
      }
      GluedRunsStep(ps, db, ts, row, sem);
    }
  }

  // ---------------------------------------------------------------- a run that the symbols break

  /** The run of a sibling. */
  lemma RunAround(or: seq<bool>, j: nat) returns (c: nat, d: nat)
    requires j < |or|
    ensures IsRun(or, c, d) && c <= j < d
  {
    c := j;
    while c > 0 && !or[c]
      invariant c <= j && forall k :: c < k <= j ==> !or[k]
    {
      c := c - 1;
    }
    d := j + 1;
    while d < |or| && !or[d]
      invariant j < d <= |or| && forall k :: j < k < d ==> !or[k]
    {
      d := d + 1;
    }
  }

  /** The truths of a list when just the siblings c up to d are true. */
  ghost predicate TrueBetween(ts: seq<Truth>, c: nat, d: nat) { forall i :: 0 <= i < |ts| ==> ts[i] == if c <= i < d then True else False }

  /** The siblings a up to b lie between c and d, and none of them is glued. */
  ghost predicate Untouched(ps: seq<Piece>, a: int, b: int, c: nat, d: nat)
  {
    0 <= a && b <= |ps| && forall i: nat :: a <= i < b ==> LooseIn(ps, i, c, d)
  }

  predicate LooseIn(ps: seq<Piece>, i: nat, c: nat, d: nat)
    requires i < |ps|
  {
    c <= i < d && !Glued(ps, i)
  }

  /** No run of words is true when glued siblings are not. */
  lemma NoRunLeft(ps: seq<Piece>, ts: seq<Truth>, j: nat, c: nat, d: nat, level: nat)
    requires |ts| == |ps| && 0 < j < |ps| && IsSymbolic(ps[j].connective) && IsRun(ConnectivesOf(ps), c, d) && c <= j < d
    requires TrueBetween(ts, c, d) && level >= 1
    ensures !SomeRunReaches(WordOrs(ps), Loose(ps, ts), level)
  {
    var words, loose := WordOrs(ps), Loose(ps, ts);
    if SomeRunReaches(words, loose, level) {
      var a: int, b: int :| IsRun(words, a, b) && AtLeast(loose, a, b, level);
      forall i: nat | a <= i < b ensures LooseIn(ps, i, c, d) {
        assert loose[i].Rank() >= level;
      }
      assert Untouched(ps, a, b, c, d);
      SameRun(ps, a, b, c, d);
      assert LooseIn(ps, j, c, d) && Glued(ps, j);
    }
  }

  /**
   When a symbol joins sibling j to the one before it, and just the siblings of j's run are true, the list is
   true; with the glued ones false it is false.
   */
  lemma BrokenRun(ps: seq<Piece>, ts: seq<Truth>, j: nat, c: nat, d: nat)
    requires |ts| == |ps| && 0 < j < |ps| && IsSymbolic(ps[j].connective) && IsRun(ConnectivesOf(ps), c, d) && c <= j < d
    requires TrueBetween(ts, c, d)
    ensures GroupTruth(ConnectivesOf(ps), ts) == True && GroupTruth(WordOrs(ps), Loose(ps, ts)) == False
  {
    assert AtLeast(ts, c, d, 2);
    NoRunLeft(ps, ts, j, c, d, 1);
    NoRunLeft(ps, ts, j, c, d, 2);
  }

  lemma SameRun(ps: seq<Piece>, a: int, b: int, c: nat, d: nat)
    requires IsRun(WordOrs(ps), a, b) && IsRun(ConnectivesOf(ps), c, d)
    requires Untouched(ps, a, b, c, d)
    ensures a == c && b == d
  {
    var or, words := ConnectivesOf(ps), WordOrs(ps);
    assert a > 0 ==> words[a] && or[a];
    assert b < |ps| ==> words[b] && or[b];
    assert LooseIn(ps, a, c, d) && LooseIn(ps, b - 1, c, d);
    assert forall k :: a < k < b ==> LooseIn(ps, k, c, d) && !or[k];
  }

  // ---------------------------------------------------------------- lists of single comparisons

  /** A single comparison. */
  /** Single comparisons over different columns. */
  predicate Singles(cs: seq<Condition>)
  {
    && (forall i :: 0 <= i < |cs| ==> Single(cs[i]))
    && (forall i, j :: 0 <= i < j < |cs| ==> cs[i].column != cs[j].column)
  }

  function SinglePiece(c: Condition, env: Env): Piece
  {
    var op := OperatorOrDefault(c);
    Piece(ConnectiveOrDefault(c), QuoteColumn(c.column, env.databaseType) + " " + op + " ?", [BoundValue(op, c.value)])
  }

  function SingleTokens(c: Condition, env: Env): seq<Token>
  {
    [ColumnToken(c.column, env.databaseType), Word(OperatorOrDefault(c)), Hole]
  }

  lemma {:induction false} SinglesCompile(cs: seq<Condition>, env: Env)
    requires CompileList(cs, env).result.Ok? && forall i :: 0 <= i < |cs| ==> Single(cs[i])
    ensures forall i :: 0 <= i < |cs| ==>
              CompileList(cs, env).result.value[i] == SinglePiece(cs[i], env) && cs[i].column in env.columns && ValidOperator(cs[i]) && ValidConnective(cs[i])
  {
    hide IsOperator, IsLogicalOperator, BoundValue, QuoteColumn;
    if cs != [] {
      SinglesCompile(cs[1..], env);
    }
  }

  lemma SingleIsFlat(c: Condition, env: Env)
    requires IsIdentifier(c.column) && ValidOperator(c) && ValidConnective(c)
    ensures Flat(SinglePiece(c, env), SingleTokens(c, env), env.databaseType)
    ensures BodyTokens(SinglePiece(c, env), env.databaseType) == SingleTokens(c, env) && StartsComparison(SingleTokens(c, env))
  {
    hide ReadTokens, IsOperator, IsLogicalOperator, BoundValue;
    SingleReads(c.column, env.databaseType, OperatorOrDefault(c));
    SingleCounts(ColumnToken(c.column, env.databaseType), Word(OperatorOrDefault(c)));
  }

  /** A row that holds in each column of the list its place in it. */
  function Places(cs: seq<Condition>): Row
    requires Singles(cs)
  {
    map i | 0 <= i < |cs| :: cs[i].column := Int(i)
  }

  /** A database in which just the comparisons c up to d of that row are true, and nothing else is. */
  function TrueFor(c: nat, d: nat): Semantics
  {
    Semantics((op: string, cell: Value, v: Value) => if cell.Int? && c <= cell.n < d then True else False,
              (ts: seq<Token>, args: seq<Value>, row: Row) => False)
  }

  lemma SingleTruth(cs: seq<Condition>, env: Env, i: nat, c: nat, d: nat)
    requires Singles(cs) && i < |cs|
    ensures
      var row, sem, t := Places(cs), TrueFor(c, d), if c <= i < d then True else False;
      ItemTruth(cs[i], env, row, sem) == t && EvalAtom(SingleTokens(cs[i], env), SinglePiece(cs[i], env).args, row, sem) == t
  {
    assert Cell(Places(cs), cs[i].column) == Int(i);
  }

  /** A text keeps the truth of its tree: it is read, takes the arguments, and is as true on every row for every database. */
  ghost predicate KeepsTruth(cs: seq<Condition>, env: Env, r: Compiled)
  {
    var e := ParseText(r.where, env.databaseType);
    && e.Some? && Holes(e.value) == |r.args|
    && forall row, sem :: EvalExpr(e.value, r.args, row, sem) == GroupTruth(OrFlags(cs), ListTruth(cs, env, row, sem))
  }

  /** The pieces of single comparisons over identifiers. */
  ghost predicate PiecesOf(cs: seq<Condition>, env: Env, ps: seq<Piece>)
  {
    && |ps| == |cs|
    && forall i :: 0 <= i < |cs| ==> ps[i] == SinglePiece(cs[i], env) && IsIdentifier(cs[i].column) && ValidOperator(cs[i]) && ValidConnective(cs[i])
  }

  lemma PiecesAreFlat(cs: seq<Condition>, env: Env, ps: seq<Piece>)
    requires PiecesOf(cs, env, ps)
    ensures ConnectivesOf(ps) == OrFlags(cs)
    ensures forall i :: 0 <= i < |ps| ==>
              Flat(ps[i], BodyTokens(ps[i], env.databaseType), env.databaseType) && StartsComparison(BodyTokens(ps[i], env.databaseType))
              && BodyTokens(ps[i], env.databaseType) == SingleTokens(cs[i], env)
  {
    hide BodyTokens, Flat, StartsComparison, SingleTokens, ValidOperator, IsLogicalOperator;
    forall i | 0 <= i < |ps|
      ensures Flat(ps[i], BodyTokens(ps[i], env.databaseType), env.databaseType) && StartsComparison(BodyTokens(ps[i], env.databaseType))
      ensures BodyTokens(ps[i], env.databaseType) == SingleTokens(cs[i], env) && IsOr(ps[i].connective) == IsOr(cs[i].logicalOperator)
    {
      SingleIsFlat(cs[i], env);
    }
  }

  lemma PlacedTruths(cs: seq<Condition>, env: Env, ps: seq<Piece>, c: nat, d: nat)
    requires Singles(cs) && PiecesOf(cs, env, ps)
    requires forall i :: 0 <= i < |ps| ==> BodyTokens(ps[i], env.databaseType) == SingleTokens(cs[i], env)
    ensures
      var row, sem := Places(cs), TrueFor(c, d);
      var ts := ListTruth(cs, env, row, sem);
      && TrueBetween(ts, c, d)
      && forall i :: 0 <= i < |ps| ==> EvalAtom(BodyTokens(ps[i], env.databaseType), ps[i].args, row, sem) == ts[i]
  {
    var row, sem := Places(cs), TrueFor(c, d);
    var ts := ListTruth(cs, env, row, sem);
    hide BodyTokens, EvalAtom, ItemTruth, SingleTokens, SinglePiece, ListTruth, ValidOperator, ValidConnective, IsIdentifier;
    forall i | 0 <= i < |ps|
      ensures ts[i] == (if c <= i < d then True else False) && EvalAtom(BodyTokens(ps[i], env.databaseType), ps[i].args, row, sem) == ts[i]
    {
      ListTruthAt(cs, env, row, sem, i);
      SingleTruth(cs, env, i, c, d);
    }
  }

  /** A symbol before sibling j: there is a row and a database for which the text is false and the tree true. */
  lemma SymbolBreaksTruth(cs: seq<Condition>, env: Env, ps: seq<Piece>, j: nat) returns (row: Row, sem: Semantics)
    requires Singles(cs) && !SymbolsAreWords(env.databaseType) && 0 < j < |cs| && IsSymbolic(ConnectiveOrDefault(cs[j])) && PiecesOf(cs, env, ps)
    ensures
      var e := ParseText(StripConnectives(TextOf(ps)), env.databaseType);
      && e.Some? && Holes(e.value) == |ArgsOf(ps)|
      && EvalExpr(e.value, ArgsOf(ps), row, sem) == False && GroupTruth(OrFlags(cs), ListTruth(cs, env, row, sem)) == True
  {
    var db := env.databaseType;
    assert ps[j].connective == ConnectiveOrDefault(cs[j]);
    PiecesAreFlat(cs, env, ps);
    var c, d := RunAround(ConnectivesOf(ps), j);
    row, sem := Places(cs), TrueFor(c, d);
    PlacedTruths(cs, env, ps, c, d);
    var ts := ListTruth(cs, env, row, sem);
    assert RefusesNative(sem);
    hide BodyTokens, EvalAtom, ListTruth, Flat, StartsComparison, StripConnectives, ParseText, PiecesOf, EvalExpr, ConnectivesOf, SingleTokens;
    BrokenRun(ps, ts, j, c, d);
    GluedMeaning(ps, db);
    GluedTruthIs(ps, db, ts, row, sem);
  }

  /** The truth of the glued list is that of the list with every glued sibling false. */
  lemma GluedTruthIs(ps: seq<Piece>, db: string, ts: seq<Truth>, row: Row, sem: Semantics)
    requires ps != [] && |ts| == |ps| && RefusesNative(sem) && Bound(Glue(ps), Atoms(GlueTokens(ps, db)))
    requires forall i :: 0 <= i < |ps| ==> StartsComparison(BodyTokens(ps[i], db))
    requires forall i :: 0 <= i < |ps| ==> EvalAtom(BodyTokens(ps[i], db), ps[i].args, row, sem) == ts[i]
    ensures GroupTruth(ConnectivesOf(Glue(ps)), TruthsOf(Glue(ps), Atoms(GlueTokens(ps, db)), row, sem)) == GroupTruth(WordOrs(ps), Loose(ps, ts))
  {
    hide EvalAtom, BodyTokens, Glue, GlueTokens, GroupTruth, RunsOf, Loose;
    GluedRuns(ps, db, ts, row, sem);
    TruthsAreGlued(ps, db, row, sem);
    RunsAreGroup(GluedOrs(ps), GluedTruths(ps, db, row, sem));
    RunsAreGroup(WordOrs(ps), Loose(ps, ts));
  }

  /**
   For any list of single comparisons over different columns the text keeps the truth of the list if and only
   if the dialect reads the symbols as connectives, or no symbol joins two of the comparisons.
   */
  lemma TruthKeptExactly(cs: seq<Condition>, env: Env, emptyCondition: bool)
    requires cs != [] && IdentifierColumns(env) && Singles(cs) && Compile(cs, env, emptyCondition).Ok?
    ensures KeepsTruth(cs, env, Compile(cs, env, emptyCondition).value) <==> SymbolsAreWords(env.databaseType) || JoinedByWords(cs)
  {
    var r := Compile(cs, env, emptyCondition).value;
    var ps := CompileList(cs, env).result.value;
    SinglesWellWritten(cs, env.databaseType);
    CompiledTextMeansTree(cs, env, emptyCondition);
    if !SymbolsAreWords(env.databaseType) && !JoinedByWords(cs) {
      SinglesCompile(cs, env);
      var j := SymbolIn(cs);
      hide ParseText, EvalExpr, GroupTruth, SinglePiece, ValidOperator, ValidConnective;
      var row, sem := SymbolBreaksTruth(cs, env, ps, j);
    }
  }

  lemma TwoGlue(ps: seq<Piece>, db: string)
    requires |ps| == 2 && IsSymbolic(ps[1].connective)
    ensures |Glue(ps)| == 1 && GlueTokens(ps, db) == [BodyTokens(ps[0], db) + [Word(ps[1].connective)] + BodyTokens(ps[1], db)]
  {
    hide BodyTokens;
    assert ps[1..] == [ps[1]] && Glue([ps[1]]) == [ps[1]];
  }

  lemma TwoText(ps: seq<Piece>, db: string)
    requires |ps| == 2 && Written(ps, db)
    ensures StripConnectives(TextOf(ps)) == ps[0].body + " " + ps[1].connective + " " + ps[1].body
  {
    hide StripConnectives, Written, ReadTokens;
    StripPieces(ps, db);
    assert ps[1..] == [ps[1]] && [ps[1]][1..] == [];
    assert TextOf([ps[1]]) == PieceText(ps[1]) + "";
  }

  lemma TwoGlued(ps: seq<Piece>, db: string)
    requires |ps| == 2 && IsSymbolic(ps[1].connective) && !SymbolsAreWords(db)
    requires forall i :: 0 <= i < |ps| ==> Flat(ps[i], BodyTokens(ps[i], db), db)
    ensures ParseText(StripConnectives(TextOf(ps)), db) == Some(Atom(BodyTokens(ps[0], db) + [Word(ps[1].connective)] + BodyTokens(ps[1], db)))
  {
    hide BodyTokens, Flat, EvalExpr, GroupTruth, ParseText, StripConnectives, TextOf, ArgsOf;
    GluedMeaning(ps, db);
    TwoGlue(ps, db);
    hide Glue, GlueTokens;
  }

  /** Two comparisons joined by a symbol: the text, and the one atom that it is read as. */
  lemma TwoBecomeOneAtom(cs: seq<Condition>, env: Env, emptyCondition: bool)
    requires |cs| == 2 && IdentifierColumns(env) && Singles(cs) && Compile(cs, env, emptyCondition).Ok?
    requires IsSymbolic(cs[1].logicalOperator) && !SymbolsAreWords(env.databaseType)
    ensures
      var r, symbol := Compile(cs, env, emptyCondition).value, cs[1].logicalOperator;
      && r.where == SinglePiece(cs[0], env).body + " " + symbol + " " + SinglePiece(cs[1], env).body
      && ParseText(r.where, env.databaseType) == Some(Atom(SingleTokens(cs[0], env) + [Word(symbol)] + SingleTokens(cs[1], env)))
  {
    var ps, db := CompileList(cs, env).result.value, env.databaseType;
    SinglesCompile(cs, env);
    assert PiecesOf(cs, env, ps);
    assert ps[0] == SinglePiece(cs[0], env) && ps[1] == SinglePiece(cs[1], env) && ps[1].connective == cs[1].logicalOperator;
    hide PiecesOf, SingleTokens, SinglePiece, ParseText, StripConnectives, BodyTokens, StartsComparison;
    PiecesAreFlat(cs, env, ps);
    assert Written(ps, db);
    hide Flat, Written;
    TwoGlued(ps, db);
    TwoText(ps, db);
  }

  lemma SymbolIn(cs: seq<Condition>) returns (j: nat)
    requires !JoinedByWords(cs) && forall i :: 0 <= i < |cs| ==> Single(cs[i])
    ensures 0 < j < |cs| && IsSymbolic(ConnectiveOrDefault(cs[j]))
  {
    assert forall i :: 0 <= i < |cs| ==> JoinedByWords(cs[i].inner);
    j :| 0 < j < |cs| && IsSymbolic(ConnectiveOrDefault(cs[j]));
  }

  lemma {:induction false} SinglesWellWritten(cs: seq<Condition>, db: string)
    requires forall i :: 0 <= i < |cs| ==> Single(cs[i])
    ensures WellWrittenList(cs, db)
  {
    if cs != [] {
      SinglesWellWritten(cs[1..], db);
    }
  }

  // ---------------------------------------------------------------- a symbol that changes nothing

  /** A comparison, the same again joined by OR, and two more of which a symbol joins the last. */
  function Absorbing(x: Condition, a: Condition, b: Condition): seq<Condition>
  {
    [x.(logicalOperator := "AND"), x.(logicalOperator := "OR"), a.(logicalOperator := "AND"), b.(logicalOperator := "&&")]
  }

  lemma SingleMeans(c: Condition, env: Env, row: Row, sem: Semantics)
    requires Single(c)
    ensures EvalAtom(SingleTokens(c, env), SinglePiece(c, env).args, row, sem) == ItemTruth(c, env, row, sem)
  {
  }

  /** The first comparison decides both lists. */
  lemma FirstDecides(t: Truth, u: Truth, v: Truth, w: Truth)
    ensures GroupTruth([false, true, false], [t, t, w]) == t
    ensures GroupTruth([false, true, false, false], [t, t, u, v]) == t
  {
    RunsAreGroup([false, true, false], [t, t, w]);
    RunsAreGroup([false, true, false, false], [t, t, u, v]);
    assert RunsOf([false], [w]) == Runs(w, False);
    assert RunsOf([true, false], [t, w]) == Runs(AndT(t, w), False) by {
      assert [true, false][1..] == [false] && [t, w][1..] == [w];
    }
    assert [false, true, false][1..] == [true, false] && [t, t, w][1..] == [t, w];
    assert RunsOf([false, false], [u, v]) == Runs(AndT(u, v), False) by {
      assert [false, false][1..] == [false] && [u, v][1..] == [v];
    }
    assert RunsOf([true, false, false], [t, u, v]) == Runs(AndT(t, AndT(u, v)), False) by {
      assert [true, false, false][1..] == [false, false] && [t, u, v][1..] == [u, v];
    }
    assert [false, true, false, false][1..] == [true, false, false] && [t, t, u, v][1..] == [t, u, v];
  }

  lemma AbsorbingGlue(ps: seq<Piece>, db: string)
    requires |ps| == 4 && ps[1].connective == "OR" && ps[2].connective == "AND" && ps[3].connective == "&&" && !IsOr(ps[0].connective)
    ensures Glue(ps) == [ps[0], ps[1], Merge(ps[2], ps[3])] && ConnectivesOf(Glue(ps)) == [false, true, false]
    ensures |GlueTokens(ps, db)| == 3 && GlueTokens(ps, db)[0] == BodyTokens(ps[0], db) && GlueTokens(ps, db)[1] == BodyTokens(ps[1], db)
  {
    hide BodyTokens;
    var p3, p2, p1 := ps[3..], ps[2..], ps[1..];
    assert p1[1..] == p2 && p2[1..] == p3;
    assert Glue(p3) == [ps[3]];
    assert Glue(p2) == [Merge(ps[2], ps[3])];
    WordGlue(p1, db);
    WordGlue(ps, db);
  }

  lemma AbsorbingTruths(x: Condition, a: Condition, b: Condition, env: Env, ps: seq<Piece>, row: Row, sem: Semantics)
    requires Single(x) && PiecesOf(Absorbing(x, a, b), env, ps) && Bound(Glue(ps), Atoms(GlueTokens(ps, env.databaseType)))
    requires |Glue(ps)| == 3 && ConnectivesOf(Glue(ps)) == [false, true, false] && Glue(ps)[0] == ps[0] && Glue(ps)[1] == ps[1]
    requires GlueTokens(ps, env.databaseType)[0] == SingleTokens(x, env) && GlueTokens(ps, env.databaseType)[1] == SingleTokens(x, env)
    ensures
      GroupTruth(ConnectivesOf(Glue(ps)), TruthsOf(Glue(ps), Atoms(GlueTokens(ps, env.databaseType)), row, sem)) ==
      GroupTruth([false, true, false, false], ListTruth(Absorbing(x, a, b), env, row, sem))
  {
    hide EvalAtom, Glue, GlueTokens, GroupTruth, SingleTokens, ValidOperator, ValidConnective, IsIdentifier;
    var cs, t := Absorbing(x, a, b), ItemTruth(x, env, row, sem);
    SingleMeans(x, env, row, sem);
    assert ps[0].args == SinglePiece(x, env).args == ps[1].args;
    TruthsAreGlued(ps, env.databaseType, row, sem);
    var us, ts := GluedTruths(ps, env.databaseType, row, sem), ListTruth(cs, env, row, sem);
    assert us[0] == t && us[1] == t;
    ListTruthAt(cs, env, row, sem, 0);
    ListTruthAt(cs, env, row, sem, 1);
    assert ItemTruth(cs[0], env, row, sem) == t && ItemTruth(cs[1], env, row, sem) == t;
    assert us == [t, t, us[2]] && ts == [t, t, ts[2], ts[3]];
    FirstDecides(t, ts[2], ts[3], us[2]);
  }

  lemma AbsorbingPieces(x: Condition, a: Condition, b: Condition, env: Env, ps: seq<Piece>)
    requires PiecesOf(Absorbing(x, a, b), env, ps)
    ensures |ps| == 4 && ps[1].connective == "OR" && ps[2].connective == "AND" && ps[3].connective == "&&" && !IsOr(ps[0].connective)
    ensures SingleTokens(Absorbing(x, a, b)[0], env) == SingleTokens(Absorbing(x, a, b)[1], env) == SingleTokens(x, env)
    ensures OrFlags(Absorbing(x, a, b)) == [false, true, false, false] && !JoinedByWords(Absorbing(x, a, b))
  {
    hide QuoteColumn, BoundValue, IsOperator, IsIdentifier, ColumnToken;
    var cs := Absorbing(x, a, b);
    assert ps[0] == SinglePiece(cs[0], env) && ps[1] == SinglePiece(cs[1], env);
    assert ps[2] == SinglePiece(cs[2], env) && ps[3] == SinglePiece(cs[3], env);
    assert IsSymbolic(ConnectiveOrDefault(cs[3]));
  }

  lemma AbsorbedPieces(x: Condition, a: Condition, b: Condition, env: Env, ps: seq<Piece>)
    requires !SymbolsAreWords(env.databaseType) && Single(x) && PiecesOf(Absorbing(x, a, b), env, ps)
    ensures KeepsTruth(Absorbing(x, a, b), env, Compiled(StripConnectives(TextOf(ps)), ArgsOf(ps)))
    ensures !JoinedByWords(Absorbing(x, a, b))
  {
    var cs, db := Absorbing(x, a, b), env.databaseType;
    AbsorbingPieces(x, a, b, env, ps);
    PiecesAreFlat(cs, env, ps);
    hide PiecesOf, Absorbing, BodyTokens, EvalAtom, Flat, StartsComparison, StripConnectives, ParseText, EvalExpr, SingleTokens, Glue, GlueTokens, GroupTruth, OrFlags, ListTruth;
    GluedMeaning(ps, db);
    AbsorbingGlue(ps, db);
    forall row, sem
      ensures GroupTruth(ConnectivesOf(Glue(ps)), TruthsOf(Glue(ps), Atoms(GlueTokens(ps, db)), row, sem)) == GroupTruth(OrFlags(cs), ListTruth(cs, env, row, sem))
    {
      AbsorbingTruths(x, a, b, env, ps, row, sem);
    }
  }

  /**
   Where a comparison is repeated the truth can be kept although the text is not read as the tree: what the
   symbol breaks is absorbed. So only the reading, and not the truth, is decided by the symbols alone. The
   one atom that the symbol makes stands for whatever such a dialect does with it: an operator of its own, as
   `||` often is, or a refusal, as SQLite and SQL Server answer `&&`; a statement they refuse has no truth.
   */
  lemma AbsorbedSymbolKeepsTruth(x: Condition, a: Condition, b: Condition, env: Env, emptyCondition: bool)
    requires !SymbolsAreWords(env.databaseType) && IdentifierColumns(env) && Single(x) && Single(a) && Single(b)
    requires Compile(Absorbing(x, a, b), env, emptyCondition).Ok?
    ensures KeepsTruth(Absorbing(x, a, b), env, Compile(Absorbing(x, a, b), env, emptyCondition).value)
    ensures !JoinedByWords(Absorbing(x, a, b))
  {
    var cs := Absorbing(x, a, b);
    var ps := CompileList(cs, env).result.value;
    hide QuoteColumn, BoundValue, IsOperator, IsLogicalOperator, StripConnectives, ParseText, GroupTruth;
    SinglesCompile(cs, env);
    assert PiecesOf(cs, env, ps);
    hide KeepsTruth, PiecesOf, JoinedByWords;
    AbsorbedPieces(x, a, b, env, ps);
  }
}

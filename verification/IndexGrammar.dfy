/**
 The language of index predicates: the parser accepts exactly the phrases of the grammar, with exactly their
 meaning, and nothing may follow but one terminator.
 */
module IndexGrammar {
  import opened Common
  import opened StringOrder
  import opened IndexSql
  import opened IndexPredicate
  import opened IndexParser
  import opened IndexCoverage

  /** A predicate as written, parentheses included. */
  datatype Phrase =
    | Comparison(column: Token, literal: Token)
    | Membership(column: Token, head: Token, tail: seq<Token>)
    | Parens(inner: Phrase)
    | Chain(isAnd: bool, first: Phrase, more: seq<Phrase>)

  // ---- Grammar -----------------------------------------------------------------------------

  predicate IsPrimary(p: Phrase)
    decreases p, 0
  {
    match p
    case Comparison(column, literal) => IsColumn(column) && IsLiteral(literal)
    case Membership(column, head, tail) => IsColumn(column) && IsLiteral(head) && forall t <- tail :: IsLiteral(t)
    case Parens(inner) => IsDisjunction(inner)
    case Chain(_, _, _) => false
  }

  predicate IsConjunction(p: Phrase)
    decreases p, 1
  {
    if p.Chain? then p.isAnd && p.more != [] && IsPrimary(p.first) && forall q <- p.more :: IsPrimary(q) else IsPrimary(p)
  }

  predicate IsDisjunction(p: Phrase)
    decreases p, 2
  {
    if p.Chain? && !p.isAnd then p.more != [] && IsConjunction(p.first) && forall q <- p.more :: IsConjunction(q) else IsConjunction(p)
  }

  /** The tokens of a phrase, followed by whatever comes after it. */
  function Words(p: Phrase, after: seq<Token>): (ts: seq<Token>)
    decreases p, 0
  {
    match p
    case Comparison(column, literal) => [column] + (Sym("=") + ([literal] + after))
    case Membership(column, head, tail) => [column] + ([Token(Word, "in")] + (Sym("(") + ([head] + (Commas(tail) + after))))
    case Parens(inner) => Sym("(") + Words(inner, Sym(")") + after)
    case Chain(isAnd, first, more) => Words(first, MoreWords(isAnd, more, after))
  }

  function MoreWords(isAnd: bool, more: seq<Phrase>, after: seq<Token>): seq<Token>
    decreases more, |more|
  {
    if more == [] then after else Operator(isAnd) + Words(more[0], MoreWords(isAnd, more[1..], after))
  }

  /** What a phrase means: parentheses mean nothing. */
  function Sense(p: Phrase): Predicate
    decreases p, 0
  {
    match p
    case Comparison(column, literal) => Leaf(false, column.value, [LiteralText(literal)])
    case Membership(column, head, tail) => Leaf(true, column.value, Sort([LiteralText(head)] + LiteralTexts(tail)))
    case Parens(inner) => Sense(inner)
    case Chain(isAnd, first, more) => Group(isAnd, [Sense(first)] + SenseOf(more))
  }

  function SenseOf(more: seq<Phrase>): seq<Predicate>
    decreases more, |more|
  {
    if more == [] then [] else [Sense(more[0])] + SenseOf(more[1..])
  }

  // ---- What is accepted is a phrase --------------------------------------------------------

  /** The tokens are this phrase followed by the rest, and the parser read its meaning. */
  ghost predicate Read(ts: seq<Token>, r: Parsed<Predicate>, p: Phrase) {
    r.Ok? && ts == Words(p, r.value.1) && r.value.0 == Sense(p)
  }

  lemma Split(ts: seq<Token>)
    requires ts != []
    ensures ts == [ts[0]] + ts[1..]
  {
  }

  lemma LiteralHead(values: seq<string>, t: Token, tail: seq<Token>)
    ensures values + [LiteralText(t)] + LiteralTexts(tail) == values + LiteralTexts([t] + tail)
    ensures Commas([t] + tail) == Sym(",") + ([t] + Commas(tail))
  {
    hide LiteralText;
    assert ([t] + tail)[1..] == tail;
  }

  lemma {:induction false} LiteralsAre(ts: seq<Token>, values: seq<string>) returns (tail: seq<Token>)
    requires ParseLiterals(ts, values).Ok?
    ensures (forall t <- tail :: IsLiteral(t)) && ts == Commas(tail) + ParseLiterals(ts, values).value.1
    ensures ParseLiterals(ts, values).value.0 == values + LiteralTexts(tail)
    decreases |ts|
  {
    hide LiteralText, IsLiteral, Commas, LiteralTexts;
    Split(ts);
    if Next(ts, Symbol, ",") {
      Split(ts[1..]);
      var rest := LiteralsAre(ts[2..], values + [LiteralText(ts[1])]);
      tail := [ts[1]] + rest;
      LiteralHead(values, ts[1], rest);
      Regrouped(Sym(","), [ts[1]], Commas(rest), ParseLiterals(ts, values).value.1);
    } else {
      tail := [];
      assert Commas([]) == Sym(")") by { NoCommas(); }
      assert values + LiteralTexts([]) == values by { NoCommas(); }
    }
  }

  lemma NoCommas()
    ensures Commas([]) == Sym(")") && LiteralTexts([]) == []
  {
  }

  lemma Regrouped(a: seq<Token>, b: seq<Token>, c: seq<Token>, d: seq<Token>)
    ensures (a + (b + c)) + d == a + (b + (c + d))
  {
  }

  lemma EqualityIs(ts: seq<Token>) returns (p: Phrase)
    requires ts != [] && IsColumn(ts[0]) && Next(ts[1..], Symbol, "=") && ParseComparison(ts[0].value, ts[1..]).Ok?
    ensures IsPrimary(p) && Read(ts, ParseComparison(ts[0].value, ts[1..]), p)
  {
    var after := ts[1..];
    p := Comparison(ts[0], after[1]);
    Split(ts);
    Split(after);
    Split(after[1..]);
  }

  lemma MembershipIs(ts: seq<Token>) returns (p: Phrase)
    requires ts != [] && IsColumn(ts[0]) && !Next(ts[1..], Symbol, "=") && ParseComparison(ts[0].value, ts[1..]).Ok?
    ensures IsPrimary(p) && Read(ts, ParseComparison(ts[0].value, ts[1..]), p)
  {
    hide ParseLiterals, LiteralText, LiteralTexts, Commas, Sort, IsLiteral;
    var after := ts[1..];
    var tail := LiteralsAre(after[3..], [LiteralText(after[2])]);
    p := Membership(ts[0], after[2], tail);
    Split(ts);
    Split(after);
    Split(after[1..]);
    Split(after[1..][1..]);
  }

  lemma {:induction false} PrimaryIs(ts: seq<Token>) returns (p: Phrase)
    requires ParsePrimary(ts).Ok?
    ensures IsPrimary(p) && Read(ts, ParsePrimary(ts), p)
    decreases |ts|, 0
  {
    hide ParseOr, ParseComparison, IsDisjunction;
    Split(ts);
    if Next(ts, Symbol, "(") {
      var inner := DisjunctionIs(ts[1..]);
      p := Parens(inner);
      Split(ParseOr(ts[1..]).value.1);
    } else if Next(ts[1..], Symbol, "=") {
      p := EqualityIs(ts);
    } else {
      p := MembershipIs(ts);
    }
  }

  lemma OneMore(isAnd: bool, terms: seq<Predicate>, next: Phrase, rest: seq<Phrase>, after: seq<Token>)
    ensures MoreWords(isAnd, [next] + rest, after) == Operator(isAnd) + Words(next, MoreWords(isAnd, rest, after))
    ensures terms + [Sense(next)] + SenseOf(rest) == terms + SenseOf([next] + rest)
  {
    hide Words, Sense, Operator;
    assert ([next] + rest)[1..] == rest;
  }

  lemma NoMore(isAnd: bool, terms: seq<Predicate>, after: seq<Token>)
    ensures MoreWords(isAnd, [], after) == after && terms + SenseOf([]) == terms
  {
  }

  lemma {:induction false} ConjunctsAre(ts: seq<Token>, terms: seq<Predicate>) returns (more: seq<Phrase>)
    requires terms != [] && AndRest(ts, terms).Ok?
    ensures (forall q <- more :: IsPrimary(q)) && ts == MoreWords(true, more, AndRest(ts, terms).value.1)
    ensures AndRest(ts, terms).value.0 == Wrap(true, terms + SenseOf(more))
    decreases |ts|, 1
  {
    hide Words, Sense, IsPrimary, ParsePrimary, Wrap, MoreWords, SenseOf;
    if Next(ts, Word, "and") {
      var next := PrimaryIs(ts[1..]);
      var after := ParsePrimary(ts[1..]).value;
      var rest := ConjunctsAre(after.1, terms + [after.0]);
      more := [next] + rest;
      Split(ts);
      OneMore(true, terms, next, rest, AndRest(ts, terms).value.1);
    } else {
      more := [];
      NoMore(true, terms, ts);
    }
  }

  lemma {:induction false} ConjunctionIs(ts: seq<Token>) returns (p: Phrase)
    requires ParseAnd(ts).Ok?
    ensures IsConjunction(p) && Read(ts, ParseAnd(ts), p)
    decreases |ts|, 1
  {
    hide ParsePrimary, AndRest;
    var first := PrimaryIs(ts);
    var after := ParsePrimary(ts).value;
    var more := ConjunctsAre(after.1, [after.0]);
    p := if more == [] then first else Chain(true, first, more);
    NoMore(true, [after.0], ParseAnd(ts).value.1);
  }

  lemma {:induction false} DisjunctsAre(ts: seq<Token>, terms: seq<Predicate>) returns (more: seq<Phrase>)
    requires terms != [] && OrRest(ts, terms).Ok?
    ensures (forall q <- more :: IsConjunction(q)) && ts == MoreWords(false, more, OrRest(ts, terms).value.1)
    ensures OrRest(ts, terms).value.0 == Wrap(false, terms + SenseOf(more))
    decreases |ts|, 2
  {
    hide Words, Sense, IsConjunction, ParseAnd, Wrap, MoreWords, SenseOf;
    if Next(ts, Word, "or") {
      var next := ConjunctionIs(ts[1..]);
      var after := ParseAnd(ts[1..]).value;
      var rest := DisjunctsAre(after.1, terms + [after.0]);
      more := [next] + rest;
      Split(ts);
      OneMore(false, terms, next, rest, OrRest(ts, terms).value.1);
    } else {
      more := [];
      NoMore(false, terms, ts);
    }
  }

  lemma {:induction false} DisjunctionIs(ts: seq<Token>) returns (p: Phrase)
    requires ParseOr(ts).Ok?
    ensures IsDisjunction(p) && Read(ts, ParseOr(ts), p)
    decreases |ts|, 2
  {
    hide ParseAnd, OrRest;
    var first := ConjunctionIs(ts);
    var after := ParseAnd(ts).value;
    var more := DisjunctsAre(after.1, [after.0]);
    p := if more == [] then first else Chain(false, first, more);
    NoMore(false, [after.0], ParseOr(ts).value.1);
  }

  // ---- Every phrase is accepted ------------------------------------------------------------

  lemma {:induction false} PrimaryReads(p: Phrase, after: seq<Token>)
    requires IsPrimary(p)
    ensures ParsePrimary(Words(p, after)) == Ok((Sense(p), after))
    decreases p, 0
  {
    hide ParsePrimary, ParseOr, IsDisjunction, LiteralText, LiteralTexts, Commas, Sort;
    match p {
      case Comparison(column, literal) => EqualRead(column, literal, after);
      case Membership(column, head, tail) => OneOfRead(column, head, tail, after);
      case Parens(inner) =>
        DisjunctionReads(inner, Sym(")") + after);
        ParensRead(Words(inner, Sym(")") + after), Sense(inner), after);
    }
  }

  lemma ParensRead(ts: seq<Token>, p: Predicate, after: seq<Token>)
    requires ParseOr(ts) == Ok((p, Sym(")") + after))
    ensures ParsePrimary(Sym("(") + ts) == Ok((p, after))
  {
    hide ParseOr;
    assert (Sym("(") + ts)[1..] == ts && (Sym(")") + after)[1..] == after;
  }

  lemma {:induction false} ConjunctsRead(more: seq<Phrase>, terms: seq<Predicate>, after: seq<Token>)
    requires (forall q <- more :: IsPrimary(q)) && terms != [] && !Next(after, Word, "and")
    ensures AndRest(MoreWords(true, more, after), terms) == Ok((Wrap(true, terms + SenseOf(more)), after))
    decreases more, |more|
  {
    hide Words, Sense, IsPrimary, ParsePrimary, Wrap, Operator, MoreWords, SenseOf;
    if more == [] {
      NoMore(true, terms, after);
    } else {
      var rest := MoreWords(true, more[1..], after);
      assert more[0] in more;
      PrimaryReads(more[0], rest);
      ConjunctsRead(more[1..], terms + [Sense(more[0])], after);
      OperatorNext(true, Words(more[0], rest));
      assert more == [more[0]] + more[1..];
      OneMore(true, terms, more[0], more[1..], after);
    }
  }

  lemma {:induction false} ConjunctionReads(p: Phrase, after: seq<Token>)
    requires IsConjunction(p) && !Next(after, Word, "and")
    ensures ParseAnd(Words(p, after)) == Ok((Sense(p), after))
    decreases p, 1
  {
    hide ParsePrimary, AndRest, IsPrimary;
    if p.Chain? {
      PrimaryReads(p.first, MoreWords(true, p.more, after));
      ConjunctsRead(p.more, [Sense(p.first)], after);
    } else {
      PrimaryReads(p, after);
      AndEnds(Sense(p), after);
    }
  }

  lemma MoreStartsWithOr(more: seq<Phrase>, after: seq<Token>)
    requires !Next(after, Word, "and")
    ensures !Next(MoreWords(false, more, after), Word, "and")
  {
    hide Words, Operator;
    if more != [] { OperatorNext(false, Words(more[0], MoreWords(false, more[1..], after))); }
  }

  lemma {:induction false} DisjunctsRead(more: seq<Phrase>, terms: seq<Predicate>, after: seq<Token>)
    requires (forall q <- more :: IsConjunction(q)) && terms != [] && Ends(after)
    ensures OrRest(MoreWords(false, more, after), terms) == Ok((Wrap(false, terms + SenseOf(more)), after))
    decreases more, |more|
  {
    hide Words, Sense, IsConjunction, ParseAnd, Wrap, Operator, MoreWords, SenseOf;
    if more == [] {
      NoMore(false, terms, after);
    } else {
      var rest := MoreWords(false, more[1..], after);
      assert more[0] in more;
      MoreStartsWithOr(more[1..], after);
      ConjunctionReads(more[0], rest);
      DisjunctsRead(more[1..], terms + [Sense(more[0])], after);
      OperatorNext(false, Words(more[0], rest));
      assert more == [more[0]] + more[1..];
      OneMore(false, terms, more[0], more[1..], after);
    }
  }

  lemma {:induction false} DisjunctionReads(p: Phrase, after: seq<Token>)
    requires IsDisjunction(p) && Ends(after)
    ensures ParseOr(Words(p, after)) == Ok((Sense(p), after))
    decreases p, 2
  {
    hide ParseAnd, OrRest, IsConjunction;
    if p.Chain? && !p.isAnd {
      MoreStartsWithOr(p.more, after);
      ConjunctionReads(p.first, MoreWords(false, p.more, after));
      DisjunctsRead(p.more, [Sense(p.first)], after);
    } else {
      ConjunctionReads(p, after);
      OrEnds(Sense(p), after);
    }
  }

  /**
   A text is accepted with a meaning if and only if it is a phrase of the grammar with that meaning, with at most one
   terminator and nothing else after it.
   */
  lemma ParsesExactlyPhrases(ts: seq<Token>, meaning: Predicate)
    ensures Parse(ts) == Ok(meaning)
       <==> exists p :: IsDisjunction(p) && Sense(p) == meaning && (ts == Words(p, []) || ts == Words(p, Sym(";")))
  {
    hide IsDisjunction, Sense, Words, ParseOr;
    if Parse(ts) == Ok(meaning) {
      var p := DisjunctionIs(ts);
      var after := ParseOr(ts).value.1;
      if Next(after, Symbol, ";") {
        Split(after);
        assert after == Sym(";") + [];
      }
      assert after == [] || after == Sym(";");
      assert IsDisjunction(p) && Sense(p) == meaning && ts == Words(p, after);
    }
    if p :| IsDisjunction(p) && Sense(p) == meaning && (ts == Words(p, []) || ts == Words(p, Sym(";"))) {
      DisjunctionReads(p, []);
      DisjunctionReads(p, Sym(";"));
      assert Sym(";")[1..] == [];
    }
  }
}

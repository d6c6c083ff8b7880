/**
 What the grammar can express it reads back exactly, and an index accepted as the open-obligation index
 holds exactly the open rows.
 */
module IndexCoverage {
  import opened Common
  import opened JsonText
  import opened StringOrder
  import opened IndexSql
  import opened IndexPredicate
  import opened IndexParser
  import W = Watches

  // ---- Reading back what was written -------------------------------------------------------

  /** A predicate as source text would spell it. */
  datatype Source =
    | Equal(column: Token, literal: Token)
    | OneOf(column: Token, head: Token, tail: seq<Token>)
    | Terms(isAnd: bool, first: Source, second: Source, more: seq<Source>)

  predicate Spelled(s: Source)
    decreases s, 0
  {
    match s
    case Equal(column, literal) => IsColumn(column) && IsLiteral(literal)
    case OneOf(column, first, rest) => IsColumn(column) && IsLiteral(first) && forall t <- rest :: IsLiteral(t)
    case Terms(_, first, second, more) => Spelled(first) && Spelled(second) && SpelledAll(more)
  }

  predicate SpelledAll(sources: seq<Source>)
    decreases sources, |sources|
  {
    sources == [] || (Spelled(sources[0]) && SpelledAll(sources[1..]))
  }

  function LiteralTexts(ts: seq<Token>): seq<string> {
    if ts == [] then [] else [LiteralText(ts[0])] + LiteralTexts(ts[1..])
  }

  function Meaning(s: Source): Predicate
    decreases s, 0
  {
    match s
    case Equal(column, literal) => Leaf(false, column.value, [LiteralText(literal)])
    case OneOf(column, first, rest) => Leaf(true, column.value, Sort([LiteralText(first)] + LiteralTexts(rest)))
    case Terms(isAnd, first, second, more) => Group(isAnd, [Meaning(first)] + [Meaning(second)] + MeaningOf(more))
  }

  function MeaningOf(sources: seq<Source>): seq<Predicate>
    decreases sources, |sources|
  {
    if sources == [] then [] else [Meaning(sources[0])] + MeaningOf(sources[1..])
  }

  function Sym(s: string): seq<Token> { [Token(Symbol, s)] }

  function Operator(isAnd: bool): seq<Token> { [Token(Word, if isAnd then "and" else "or")] }

  function Commas(ts: seq<Token>): seq<Token> {
    if ts == [] then Sym(")") else Sym(",") + ([ts[0]] + Commas(ts[1..]))
  }

  /** The tokens of a predicate, followed by whatever comes after it. */
  function Spell(s: Source, after: seq<Token>): seq<Token>
    decreases s, 1
  {
    match s
    case Equal(column, literal) => [column] + (Sym("=") + ([literal] + after))
    case OneOf(column, first, rest) => [column] + ([Token(Word, "in")] + (Sym("(") + ([first] + (Commas(rest) + after))))
    case Terms(isAnd, first, second, more) =>
      SpellTerm(first, Operator(isAnd) + SpellTerm(second, SpellMore(isAnd, more, after)))
  }

  /** Compound terms are parenthesised. */
  function SpellTerm(s: Source, after: seq<Token>): seq<Token>
    decreases s, 2
  {
    if s.Terms? then Sym("(") + Spell(s, Sym(")") + after) else Spell(s, after)
  }

  function SpellMore(isAnd: bool, sources: seq<Source>, after: seq<Token>): seq<Token>
    decreases sources, |sources|
  {
    if sources == [] then after else Operator(isAnd) + SpellTerm(sources[0], SpellMore(isAnd, sources[1..], after))
  }

  /** No operator follows, so the predicate ends here. */
  predicate Ends(after: seq<Token>) { !Next(after, Word, "and") && !Next(after, Word, "or") }

  lemma {:induction false} LiteralsRead(rest: seq<Token>, values: seq<string>, after: seq<Token>)
    requires forall t <- rest :: IsLiteral(t)
    ensures ParseLiterals(Commas(rest) + after, values) == Ok((values + LiteralTexts(rest), after))
    decreases |rest|
  {
    var ts := Commas(rest) + after;
    if rest == [] {
      assert ts[0] == Token(Symbol, ")") && ts[1..] == after;
      assert values + [] == values;
    } else {
      assert ts == Sym(",") + ([rest[0]] + (Commas(rest[1..]) + after));
      assert ts[0] == Token(Symbol, ",") && ts[1] == rest[0] && ts[2..] == Commas(rest[1..]) + after;
      LiteralsRead(rest[1..], values + [LiteralText(rest[0])], after);
      assert values + [LiteralText(rest[0])] + LiteralTexts(rest[1..]) == values + LiteralTexts(rest);
    }
  }

  lemma EqualRead(column: Token, literal: Token, after: seq<Token>)
    requires IsColumn(column) && IsLiteral(literal)
    ensures ParsePrimary([column] + (Sym("=") + ([literal] + after))) == Ok((Leaf(false, column.value, [LiteralText(literal)]), after))
  {
    hide ParseOr, LiteralText;
    var body := Sym("=") + ([literal] + after);
    var ts := [column] + body;
    assert ts[0] == column && ts[1..] == body;
    assert body[0] == Token(Symbol, "=") && body[1] == literal && body[2..] == after;
  }

  lemma OneOfRead(column: Token, head: Token, tail: seq<Token>, after: seq<Token>)
    requires IsColumn(column) && IsLiteral(head) && forall t <- tail :: IsLiteral(t)
    ensures ParsePrimary([column] + ([Token(Word, "in")] + (Sym("(") + ([head] + (Commas(tail) + after)))))
         == Ok((Leaf(true, column.value, Sort([LiteralText(head)] + LiteralTexts(tail))), after))
  {
    hide ParseOr, LiteralText, LiteralTexts, Sort, ParseLiterals, Commas;
    var rest := Commas(tail) + after;
    var body := [Token(Word, "in")] + (Sym("(") + ([head] + rest));
    var ts := [column] + body;
    assert ts[0] == column && ts[1..] == body;
    assert body[0] == Token(Word, "in") && body[1..][0] == Token(Symbol, "(") && body[2] == head && body[3..] == rest;
    LiteralsRead(tail, [LiteralText(head)], after);
  }

  lemma ComparisonRead(s: Source, after: seq<Token>)
    requires Spelled(s) && !s.Terms?
    ensures ParsePrimary(Spell(s, after)) == Ok((Meaning(s), after))
  {
    hide ParsePrimary, LiteralText, LiteralTexts, Sort, Commas, Sym;
    if s.Equal? {
      EqualRead(s.column, s.literal, after);
    } else {
      OneOfRead(s.column, s.head, s.tail, after);
    }
  }

  /** One term is read as a primary, whatever follows. */
  lemma {:induction false} TermRead(s: Source, after: seq<Token>)
    requires Spelled(s)
    ensures ParsePrimary(SpellTerm(s, after)) == Ok((Meaning(s), after))
    decreases s, 2
  {
    if s.Terms? {
      var inner := Spell(s, Sym(")") + after);
      var ts := Sym("(") + inner;
      assert ts[0] == Token(Symbol, "(") && ts[1..] == inner;
      assert (Sym(")") + after)[0] == Token(Symbol, ")") && (Sym(")") + after)[1..] == after;
      SourceRead(s, Sym(")") + after);
    } else {
      ComparisonRead(s, after);
    }
  }

  lemma OperatorNext(isAnd: bool, ts: seq<Token>)
    ensures Next(Operator(isAnd) + ts, Word, "and") == isAnd && Next(Operator(isAnd) + ts, Word, "or") == !isAnd
    ensures (Operator(isAnd) + ts)[1..] == ts
  {
    assert (Operator(isAnd) + ts)[0] == Token(Word, if isAnd then "and" else "or");
    assert "and"[0] != "or"[0];
  }

  lemma NoMoreMeaning(terms: seq<Predicate>, more: seq<Source>)
    ensures more == [] ==> terms + MeaningOf(more) == terms
  {
  }

  lemma OneMoreMeaning(terms: seq<Predicate>, more: seq<Source>)
    requires more != []
    ensures terms + [Meaning(more[0])] + MeaningOf(more[1..]) == terms + MeaningOf(more)
  {
    hide Meaning;
  }

  lemma AndEnds(p: Predicate, after: seq<Token>)
    requires !Next(after, Word, "and")
    ensures AndRest(after, [p]) == Ok((p, after))
  {
  }

  lemma OrEnds(p: Predicate, after: seq<Token>)
    requires !Next(after, Word, "or")
    ensures OrRest(after, [p]) == Ok((p, after))
  {
  }

  /** One more operator and term extends the list. */
  lemma AndOneMore(s: Source, rest: seq<Token>, terms: seq<Predicate>)
    requires terms != [] && ParsePrimary(SpellTerm(s, rest)) == Ok((Meaning(s), rest))
    ensures AndRest(Operator(true) + SpellTerm(s, rest), terms) == AndRest(rest, terms + [Meaning(s)])
  {
    hide ParsePrimary, SpellTerm, Meaning, Wrap;
    OperatorNext(true, SpellTerm(s, rest));
    hide Operator;
  }

  lemma OrOneMore(s: Source, rest: seq<Token>, terms: seq<Predicate>)
    requires terms != [] && ParseAnd(SpellTerm(s, rest)) == Ok((Meaning(s), rest))
    ensures OrRest(Operator(false) + SpellTerm(s, rest), terms) == OrRest(rest, terms + [Meaning(s)])
  {
    hide ParseAnd, SpellTerm, Meaning, Wrap;
    OperatorNext(false, SpellTerm(s, rest));
    hide Operator;
  }

  lemma {:induction false} AndTermsRead(more: seq<Source>, terms: seq<Predicate>, after: seq<Token>)
    requires SpelledAll(more) && terms != [] && !Next(after, Word, "and")
    ensures AndRest(SpellMore(true, more, after), terms) == Ok((Wrap(true, terms + MeaningOf(more)), after))
    decreases more, |more|
  {
    hide ParsePrimary, SpellTerm, Meaning, MeaningOf, Wrap, Operator, Spelled;
    NoMoreMeaning(terms, more);
    if more == [] {
    } else {
      var rest := SpellMore(true, more[1..], after);
      TermRead(more[0], rest);
      AndOneMore(more[0], rest, terms);
      hide AndRest;
      AndTermsRead(more[1..], terms + [Meaning(more[0])], after);
      OneMoreMeaning(terms, more);
    }
  }

  /** Under `or`, every term is an `and` list of one. */
  lemma {:induction false} AloneRead(s: Source, after: seq<Token>)
    requires Spelled(s) && !Next(after, Word, "and")
    ensures ParseAnd(SpellTerm(s, after)) == Ok((Meaning(s), after))
    decreases s, 3
  {
    hide ParsePrimary, SpellTerm, Meaning, AndRest;
    TermRead(s, after);
    AndEnds(Meaning(s), after);
  }

  lemma {:induction false} OrTermsRead(more: seq<Source>, terms: seq<Predicate>, after: seq<Token>)
    requires SpelledAll(more) && terms != [] && Ends(after)
    ensures OrRest(SpellMore(false, more, after), terms) == Ok((Wrap(false, terms + MeaningOf(more)), after))
    decreases more, |more|
  {
    hide ParseAnd, SpellTerm, Meaning, MeaningOf, Wrap, Operator, Spelled;
    NoMoreMeaning(terms, more);
    if more == [] {
    } else {
      var rest := SpellMore(false, more[1..], after);
      assert Ends(after);
      MoreIsNoAnd(more[1..], after);
      AloneRead(more[0], rest);
      OrOneMore(more[0], rest, terms);
      assert SpellMore(false, more, after) == Operator(false) + SpellTerm(more[0], rest);
      hide OrRest, SpellMore, Ends;
      OrTermsRead(more[1..], terms + [Meaning(more[0])], after);
      OneMoreMeaning(terms, more);
    }
  }

  lemma MoreIsNoAnd(more: seq<Source>, after: seq<Token>)
    requires Ends(after)
    ensures !Next(SpellMore(false, more, after), Word, "and")
  {
    if more != [] { OperatorNext(false, SpellTerm(more[0], SpellMore(false, more[1..], after))); }
  }

  /** Everything the grammar can express, it reads back, with exactly its meaning. */
  lemma {:induction false} SourceRead(s: Source, after: seq<Token>)
    requires Spelled(s) && Ends(after)
    ensures ParseOr(Spell(s, after)) == Ok((Meaning(s), after))
    decreases s, 1
  {
    hide AndRest, OrRest, ParsePrimary, Meaning, Spell;
    if s.Terms? {
      if s.isAnd { AndTermsSpelled(s, after); } else { OrTermsSpelled(s, after); }
    } else {
      ComparisonRead(s, after);
      AndEnds(Meaning(s), after);
      OrEnds(Meaning(s), after);
    }
  }

  lemma {:induction false} AndTermsSpelled(s: Source, after: seq<Token>)
    requires s.Terms? && s.isAnd && Spelled(s) && Ends(after)
    ensures ParseOr(Spell(s, after)) == Ok((Meaning(s), after))
    decreases s, 0
  {
    hide AndRest, OrRest, ParsePrimary, SpellTerm, SpellMore, Operator;
    var rest := SpellMore(true, s.more, after);
    TermRead(s.first, Operator(true) + SpellTerm(s.second, rest));
    TermRead(s.second, rest);
    AndOneMore(s.second, rest, [Meaning(s.first)]);
    AndTermsRead(s.more, [Meaning(s.first)] + [Meaning(s.second)], after);
    OrEnds(Meaning(s), after);
  }

  lemma {:induction false} OrTermsSpelled(s: Source, after: seq<Token>)
    requires s.Terms? && !s.isAnd && Spelled(s) && Ends(after)
    ensures ParseOr(Spell(s, after)) == Ok((Meaning(s), after))
    decreases s, 0
  {
    hide ParseAnd, OrRest, SpellTerm, SpellMore;
    var rest := SpellMore(false, s.more, after);
    OperatorNext(false, SpellTerm(s.second, rest));
    MoreIsNoAnd(s.more, after);
    hide Operator;
    AloneRead(s.first, Operator(false) + SpellTerm(s.second, rest));
    AloneRead(s.second, rest);
    OrOneMore(s.second, rest, [Meaning(s.first)]);
    OrTermsRead(s.more, [Meaning(s.first)] + [Meaning(s.second)], after);
  }

  /** Spelling a predicate, with or without a terminator, and parsing it gives back its meaning. */
  lemma SpelledParses(s: Source)
    requires Spelled(s)
    ensures Parse(Spell(s, [])) == Ok(Meaning(s)) && Parse(Spell(s, Sym(";"))) == Ok(Meaning(s))
  {
    SourceRead(s, []);
    SourceRead(s, Sym(";"));
  }

  // ---- Parsed predicates have sorted IN lists ----------------------------------------------

  lemma ComparisonSorted(column: string, ts: seq<Token>)
    requires ParseComparison(column, ts).Ok?
    ensures SortedValues(ParseComparison(column, ts).value.0)
  {
    if !Next(ts, Symbol, "=") { SortOrders(ParseLiterals(ts[3..], [LiteralText(ts[2])]).value.0); }
  }

  lemma {:induction false} PrimarySorted(ts: seq<Token>)
    requires ParsePrimary(ts).Ok?
    ensures SortedValues(ParsePrimary(ts).value.0)
    decreases |ts|, 0
  {
    if Next(ts, Symbol, "(") { OrSorted(ts[1..]); } else { ComparisonSorted(ts[0].value, ts[1..]); }
  }

  lemma WrapSorted(isAnd: bool, terms: seq<Predicate>)
    requires terms != [] && SortedAll(terms)
    ensures SortedValues(Wrap(isAnd, terms))
  {
  }

  lemma OneMoreSorted(terms: seq<Predicate>, p: Predicate)
    requires SortedAll(terms) && SortedValues(p)
    ensures SortedAll(terms + [p])
  {
    assert [p][1..] == [];
    SortedAppend(terms, [p]);
  }

  lemma {:induction false} AndRestSorted(ts: seq<Token>, terms: seq<Predicate>)
    requires terms != [] && SortedAll(terms) && AndRest(ts, terms).Ok?
    ensures SortedValues(AndRest(ts, terms).value.0)
    decreases |ts|, 1
  {
    hide SortedValues, SortedAll;
    if Next(ts, Word, "and") {
      PrimarySorted(ts[1..]);
      var next := ParsePrimary(ts[1..]);
      OneMoreSorted(terms, next.value.0);
      AndRestSorted(next.value.1, terms + [next.value.0]);
    } else {
      WrapSorted(true, terms);
    }
  }

  lemma {:induction false} AndSorted(ts: seq<Token>)
    requires ParseAnd(ts).Ok?
    ensures SortedValues(ParseAnd(ts).value.0)
    decreases |ts|, 1
  {
    PrimarySorted(ts);
    var first := ParsePrimary(ts);
    OneMoreSorted([], first.value.0);
    assert [] + [first.value.0] == [first.value.0];
    AndRestSorted(first.value.1, [first.value.0]);
  }

  lemma {:induction false} OrRestSorted(ts: seq<Token>, terms: seq<Predicate>)
    requires terms != [] && SortedAll(terms) && OrRest(ts, terms).Ok?
    ensures SortedValues(OrRest(ts, terms).value.0)
    decreases |ts|, 2
  {
    hide SortedValues, SortedAll;
    if Next(ts, Word, "or") {
      AndSorted(ts[1..]);
      var next := ParseAnd(ts[1..]);
      OneMoreSorted(terms, next.value.0);
      OrRestSorted(next.value.1, terms + [next.value.0]);
    } else {
      WrapSorted(false, terms);
    }
  }

  lemma {:induction false} OrSorted(ts: seq<Token>)
    requires ParseOr(ts).Ok?
    ensures SortedValues(ParseOr(ts).value.0)
    decreases |ts|, 2
  {
    AndSorted(ts);
    var first := ParseAnd(ts);
    OneMoreSorted([], first.value.0);
    assert [] + [first.value.0] == [first.value.0];
    OrRestSorted(first.value.1, [first.value.0]);
  }

  /** Two index definitions whose normal forms agree have predicates that agree on every row. */
  lemma SameNormalFormSameRows(row: RowReading, a: seq<Token>, b: seq<Token>)
    requires NormalForm(a).Ok? && NormalForm(a) == NormalForm(b)
    ensures Eval(row, Parse(a).value) == Eval(row, Parse(b).value)
  {
    OrSorted(a);
    OrSorted(b);
    NormalFormKeepsMeaning(row, Parse(a).value, Parse(b).value);
  }

  // ---- The open-obligation index -----------------------------------------------------------

  function StateName(s: W.WatchState): string {
    match s
    case SettlementPending => "settlement_pending"
    case Active => "active"
    case Matched => "matched"
    case SettlementUnknown => "settlement_unknown"
    case Expired => "expired"
    case Indeterminate => "indeterminate"
  }

  function StateLiteral(s: W.WatchState): Token { Token(Text, StateName(s)) }

  function FlagLiteral(set_: bool): Token { Token(Integer, if set_ then "1" else "0") }

  const STATE: Token := Token(Word, "state")
  const TERMINAL: Token := Token(Word, "settlement_reconciliation_terminal")

  /** state IN (pending, active) OR (state = unknown AND terminal = 0). */
  function OpenPredicate(): Source {
    Terms(false, OneOf(STATE, StateLiteral(W.SettlementPending), [StateLiteral(W.Active)]),
          Terms(true, Equal(STATE, StateLiteral(W.SettlementUnknown)), Equal(TERMINAL, FlagLiteral(false)), []), [])
  }

  function Known(b: bool): Truth { if b then True else False }

  /** How a watch row answers comparisons; the other columns answer as they please. */
  function Reading(r: W.Row, other: RowReading): RowReading {
    (column, literal) =>
      if column == STATE.value then Known(literal == LiteralText(StateLiteral(r.state)))
      else if column == TERMINAL.value then Known(literal == LiteralText(FlagLiteral(r.terminal)))
      else other(column, literal)
  }

  lemma LiteralsDistinct(a: Token, b: Token)
    requires IsLiteral(a) && IsLiteral(b)
    ensures LiteralText(a) == LiteralText(b) <==> a == b
  {
    if LiteralText(a) == LiteralText(b) {
      ListInjective([KindName(a.kind), a.value], [KindName(b.kind), b.value]);
      assert [KindName(a.kind), a.value][0] == [KindName(b.kind), b.value][0];
      assert [KindName(a.kind), a.value][1] == [KindName(b.kind), b.value][1];
      assert "string"[0] != "integer"[0];
    }
  }

  lemma StateNamesDistinct(a: W.WatchState, b: W.WatchState)
    ensures StateName(a) == StateName(b) <==> a == b
  {
    assert |"settlement_pending"| == 18 && |"settlement_unknown"| == 18 && "settlement_pending"[11] != "settlement_unknown"[11];
    assert |"active"| == 6 && |"matched"| == 7 && |"expired"| == 7 && |"indeterminate"| == 13 && "matched"[0] != "expired"[0];
  }

  lemma TwoValues(row: RowReading, column: string, a: string, b: string)
    ensures EvalValues(row, column, [a]) == row(column, a)
    ensures EvalValues(row, column, Sort([a] + [b])) == Or(row(column, a), row(column, b))
  {
    assert [a][1..] == [];
    SortOrders([a] + [b]);
    ValuesUnordered(row, column, Sort([a] + [b]), [a] + [b]);
    assert ([a] + [b])[1..] == [b] && [b][1..] == [];
  }

  /** What a row answers to the four comparisons of the open-obligation predicate. */
  lemma ReadingAnswers(r: W.Row, other: RowReading, s: W.WatchState)
    ensures Reading(r, other)(STATE.value, LiteralText(StateLiteral(s))) == Known(r.state == s)
    ensures Reading(r, other)(TERMINAL.value, LiteralText(FlagLiteral(false))) == Known(!r.terminal)
  {
    LiteralsDistinct(StateLiteral(s), StateLiteral(r.state));
    LiteralsDistinct(FlagLiteral(false), FlagLiteral(r.terminal));
    StateNamesDistinct(s, r.state);
    ColumnsDistinct();
    hide LiteralText, StateName;
  }

  /** The open-obligation predicate, read in three-valued logic, is true of exactly the open rows. */
  lemma OpenPredicateMeansOpen(r: W.Row, other: RowReading)
    ensures Eval(Reading(r, other), Meaning(OpenPredicate())) == Known(W.Open(r))
  {
    hide LiteralText, EvalValues, Sort, StateName, Eval, Meaning, OpenPredicate, Reading;
    var row := Reading(r, other);
    var pending, active := LiteralText(StateLiteral(W.SettlementPending)), LiteralText(StateLiteral(W.Active));
    var unknown, clear := LiteralText(StateLiteral(W.SettlementUnknown)), LiteralText(FlagLiteral(false));
    ReadingAnswers(r, other, W.SettlementPending);
    ReadingAnswers(r, other, W.Active);
    ReadingAnswers(r, other, W.SettlementUnknown);
    TwoValues(row, STATE.value, pending, active);
    TwoValues(row, STATE.value, unknown, unknown);
    TwoValues(row, TERMINAL.value, clear, clear);
    OpenTree(row, pending, active, unknown, clear);
  }

  lemma ColumnsDistinct()
    ensures STATE.value != TERMINAL.value && "0" != "1"
  {
    assert |STATE.value| == 5 && |TERMINAL.value| > 5;
    assert "0"[0] != "1"[0];
  }

  lemma OpenTree(row: RowReading, pending: string, active: string, unknown: string, clear: string)
    requires pending == LiteralText(StateLiteral(W.SettlementPending)) && active == LiteralText(StateLiteral(W.Active))
    requires unknown == LiteralText(StateLiteral(W.SettlementUnknown)) && clear == LiteralText(FlagLiteral(false))
    ensures Eval(row, Meaning(OpenPredicate()))
         == Or(EvalValues(row, STATE.value, Sort([pending] + [active])),
               And(EvalValues(row, STATE.value, [unknown]), EvalValues(row, TERMINAL.value, [clear])))
  {
    hide LiteralText, EvalValues, Sort, StateName;
    var inOpen := Leaf(true, STATE.value, Sort([pending] + [active]));
    var isUnknown, isClear := Leaf(false, STATE.value, [unknown]), Leaf(false, TERMINAL.value, [clear]);
    assert [StateLiteral(W.Active)][1..] == [];
    assert LiteralTexts([StateLiteral(W.Active)]) == [active];
    var both := Group(true, [isUnknown] + [isClear] + []);
    assert Meaning(OpenPredicate()) == Group(false, [inOpen] + [both] + []);
    PairEvaluates(row, true, isUnknown, isClear);
    PairEvaluates(row, false, inOpen, both);
  }

  lemma PairEvaluates(row: RowReading, isAnd: bool, a: Predicate, b: Predicate)
    ensures Eval(row, Group(isAnd, [a] + [b] + [])) == Combine(isAnd, Eval(row, a), Eval(row, b))
  {
    var terms := [a] + [b] + [];
    assert terms[0] == a && terms[1..][0] == b && terms[1..][1..] == [];
    assert EvalAll(row, isAnd, terms[1..]) == Combine(isAnd, Eval(row, b), Unit(isAnd));
  }

  lemma OpenIsSpelled()
    ensures Spelled(OpenPredicate())
  {
  }

  /**
   Whatever text an existing partial index was created with: once its normal form is accepted as the
   open-obligation predicate, the index contains exactly the open rows.
   */
  lemma AcceptedIndexHoldsOpenRows(ts: seq<Token>, r: W.Row, other: RowReading)
    requires NormalForm(ts).Ok? && NormalForm(ts) == NormalForm(Spell(OpenPredicate(), []))
    ensures Eval(Reading(r, other), Parse(ts).value) == True <==> W.Open(r)
  {
    OpenIsSpelled();
    hide OpenPredicate, Spell, Parse, NormalForm, Eval, Meaning, Reading, Spelled, W.Open;
    SpelledParses(OpenPredicate());
    SameNormalFormSameRows(Reading(r, other), ts, Spell(OpenPredicate(), []));
    OpenPredicateMeansOpen(r, other);
  }
}

/**
 The check of the open-obligation index from its definition's text: lex it, find the structural WHERE, and
 compare the normal form of what follows with that of the store's own predicate text.
 */
module IndexAcceptance {
  import opened Common
  import opened IndexSql
  import opened IndexPredicate
  import opened IndexParser
  import opened IndexCoverage
  import W = Watches

  // ---- Text in pieces ----------------------------------------------------------------------

  /** What a text is made of: white space, words, numbers, quoted texts without quotes inside, other symbols. */
  datatype Piece = Gap(text: string) | Bare(text: string) | Number(text: string) | Quote(text: string) | Mark(mark: char)

  /** The piece is what it says, and what follows does not run on into it. */
  predicate Stands(p: Piece, after: string) {
    match p
    case Gap(text) => forall c <- text :: Trivia(c)
    case Bare(text) => text != "" && WordStart(text[0]) && (forall c <- text :: WordPart(c)) && after != "" && !WordPart(after[0])
    case Number(text) => text != "" && (forall c <- text :: Digit(c)) && after != "" && !Digit(after[0])
    case Quote(text) => (forall c <- text :: c != '\'') && (after == "" || after[0] != '\'')
    case Mark(mark) => !Trivia(mark) && !WordStart(mark) && !Digit(mark) && !Opening(mark) && mark != '-' && mark != '/'
  }

  lemma {:induction false} GapReads(text: string, after: string)
    requires forall c <- text :: Trivia(c)
    ensures Lex(text + after) == Lex(after)
  {
    if text == "" {
      assert text + after == after;
    } else {
      assert (text + after)[0] == text[0] && (text + after)[1..] == text[1..] + after;
      GapReads(text[1..], after);
    }
  }

  lemma {:induction false} NothingDoubled(s: string, quote: char)
    requires forall c <- s :: c != quote
    ensures Doubled(s, quote) == s
  {
    if s != "" {
      assert s[0] in s;
      forall c <- s[1..] ensures c != quote { assert c in s; }
      NothingDoubled(s[1..], quote);
    }
  }

  lemma QuoteReads(text: string, after: string)
    requires Stands(Quote(text), after)
    ensures Lex("'" + (text + "'") + after) == Prepend([Token(Text, text)], Lex(after))
  {
    hide Quoted, Doubled;
    NothingDoubled(text, '\'');
    DoubledReads(text, '\'', after);
    var all, body := "'" + (text + "'") + after, text + ("'" + after);
    assert all[0] == '\'' && all[1..] == body;
    assert Scan(all) == Emit(Token(Text, text), 1 + (|text| + 1));
    assert all[1 + (|text| + 1)..] == after;
  }

  lemma WordReads(text: string, after: string)
    requires Stands(Bare(text), after)
    ensures Lex(text + after) == Prepend([Token(Word, Fold(text))], Lex(after))
  {
    var all := text + after;
    WholeWord(text, after);
    assert all[..|text|] == text && all[|text|..] == after && all[0] == text[0];
    StartsWord(all);
    hide Fold, Scan;
  }

  lemma NumberReads(text: string, after: string)
    requires Stands(Number(text), after)
    ensures Lex(text + after) == Prepend([Token(Integer, StripZeros(text))], Lex(after))
  {
    var all := text + after;
    WholeNumber(text, after);
    assert all[..|text|] == text && all[|text|..] == after && all[0] == text[0] && text[0] in text;
    StartsNumber(all);
    hide StripZeros, Scan;
  }

  lemma MarkReads(mark: char, after: string)
    requires Stands(Mark(mark), after)
    ensures Lex([mark] + after) == Prepend([Token(Symbol, [mark])], Lex(after))
  {
    assert ([mark] + after)[0] == mark && ([mark] + after)[1..] == after;
  }

  lemma Space(gap: string, after: string, rest: seq<Token>)
    requires (forall c <- gap :: Trivia(c)) && Lex(after) == Ok(rest)
    ensures Lex(gap + after) == Ok(rest)
  {
    GapReads(gap, after);
  }

  lemma AWord(text: string, folded: string, after: string, rest: seq<Token>)
    requires text != "" && WordStart(text[0]) && (forall c <- text :: WordPart(c)) && Fold(text) == folded && Lex(after) == Ok(rest)
    ensures Lex(text + (" " + after)) == Ok([Token(Word, folded)] + rest)
  {
    Space(" ", after, rest);
    hide Lex, Fold;
    WordReads(text, " " + after);
  }

  lemma AMark(mark: string, after: string, rest: seq<Token>)
    requires |mark| == 1 && Stands(Mark(mark[0]), after) && Lex(after) == Ok(rest)
    ensures Lex(mark + after) == Ok(Sym(mark) + rest)
  {
    hide Lex;
    MarkReads(mark[0], after);
    assert mark == [mark[0]];
  }

  lemma AText(text: string, after: string, rest: seq<Token>)
    requires (forall c <- text :: c != '\'') && after != "" && after[0] != '\'' && Lex(after) == Ok(rest)
    ensures Lex("'" + (text + "'") + after) == Ok([Token(Text, text)] + rest)
  {
    hide Lex;
    QuoteReads(text, after);
  }

  // ---- The store's own predicate -----------------------------------------------------------

  function StatesText(after: string): string {
    "\n   " + ("state" + (" " + ("IN" + (" " + ("(" + ("'" + ("settlement_pending" + "'") + ("," + (" " + ("'" + ("active" + "'") + (")" + after))))))))))
  }

  function UnknownText(after: string): string {
    "\n   " + ("OR" + (" " + ("(" + IsUnknownText(after))))
  }

  function IsUnknownText(after: string): string {
    "state" + (" " + ("=" + (" " + ("'" + ("settlement_unknown" + "'") + (" " + after)))))
  }

  function ClearText(after: string): string {
    "AND" + (" " + (TERMINAL.value + (" " + ("=" + (" " + ("0" + (")" + after)))))))
  }

  /** OPEN_OBLIGATION_PREDICATE. */
  function OpenObligationPredicate(): string { StatesText(UnknownText(ClearText("\n"))) }

  lemma FoldTwo(a: char, b: char)
    ensures Fold([a, b]) == [Lower(a), Lower(b)]
  {
    assert [a, b][1..] == [b] && [b][1..] == [];
    assert Fold([b]) == [Lower(b)];
  }

  lemma FoldThree(a: char, b: char, c: char)
    ensures Fold([a, b, c]) == [Lower(a), Lower(b), Lower(c)]
  {
    assert [a, b, c][1..] == [b, c];
    FoldTwo(b, c);
  }

  lemma KeywordsFold()
    ensures Fold("IN") == "in" && Fold("OR") == "or" && Fold("AND") == "and"
  {
    FoldTwo('I', 'N');
    FoldTwo('O', 'R');
    FoldThree('A', 'N', 'D');
    hide Fold;
    assert "IN" == ['I', 'N'] && "OR" == ['O', 'R'] && "AND" == ['A', 'N', 'D'];
    assert "in" == ['i', 'n'] && "or" == ['o', 'r'] && "and" == ['a', 'n', 'd'];
  }

  predicate Small(c: char) { 'a' <= c <= 'z' || c == '_' }

  lemma ColumnsAreSmall()
    ensures forall i | 0 <= i < |STATE.value| :: Small(STATE.value[i])
    ensures forall i | 0 <= i < |TERMINAL.value| :: Small(TERMINAL.value[i])
  {
  }

  lemma SmallFolds(s: string)
    requires forall i | 0 <= i < |s| :: Small(s[i])
    ensures Fold(s) == s && forall c <- s :: WordPart(c)
  {
    FoldedIsFolded(s);
    hide Fold;
  }

  lemma ColumnsFold()
    ensures Fold(STATE.value) == STATE.value && Fold(TERMINAL.value) == TERMINAL.value
    ensures (forall c <- STATE.value :: WordPart(c)) && (forall c <- TERMINAL.value :: WordPart(c))
  {
    ColumnsAreSmall();
    hide Fold, Small, STATE, TERMINAL, WordPart;
    SmallFolds(STATE.value);
    SmallFolds(TERMINAL.value);
  }

  lemma TerminalStarts()
    ensures TERMINAL == Token(Word, TERMINAL.value) && TERMINAL.value != "" && WordStart(TERMINAL.value[0])
  {
  }

  lemma ZeroReads(after: string, rest: seq<Token>)
    requires after != "" && !Digit(after[0]) && Lex(after) == Ok(rest)
    ensures Lex("0" + after) == Ok([FlagLiteral(false)] + rest)
  {
    hide Lex;
    NumberReads("0", after);
  }

  lemma ClearReads(after: string, rest: seq<Token>)
    requires Lex(after) == Ok(rest)
    ensures Lex(ClearText(after))
         == Ok([Token(Word, "and")] + ([TERMINAL] + (Sym("=") + ([FlagLiteral(false)] + (Sym(")") + rest)))))
  {
    KeywordsFold();
    ColumnsFold();
    TerminalStarts();
    hide Lex, Fold, TERMINAL;
    AMark(")", after, rest);
    var a1, t1 := ")" + after, Sym(")") + rest;
    ZeroReads(a1, t1);
    var a2, t2 := "0" + a1, [FlagLiteral(false)] + t1;
    Space(" ", a2, t2);
    AMark("=", " " + a2, t2);
    var a3, t3 := "=" + (" " + a2), Sym("=") + t2;
    AWord(TERMINAL.value, TERMINAL.value, a3, t3);
    AWord("AND", "and", TERMINAL.value + (" " + a3), [TERMINAL] + t3);
  }

  lemma IsUnknownReads(after: string, rest: seq<Token>)
    requires Lex(after) == Ok(rest)
    ensures Lex(IsUnknownText(after)) == Ok([STATE] + (Sym("=") + ([StateLiteral(W.SettlementUnknown)] + rest)))
  {
    ColumnsFold();
    hide Lex, Fold;
    Space(" ", after, rest);
    AText("settlement_unknown", " " + after, rest);
    var a1, t1 := "'" + ("settlement_unknown" + "'") + (" " + after), [StateLiteral(W.SettlementUnknown)] + rest;
    Space(" ", a1, t1);
    AMark("=", " " + a1, t1);
    AWord("state", "state", "=" + (" " + a1), Sym("=") + t1);
  }

  lemma UnknownReads(after: string, rest: seq<Token>)
    requires Lex(after) == Ok(rest)
    ensures Lex(UnknownText(after))
         == Ok([Token(Word, "or")] + (Sym("(") + ([STATE] + (Sym("=") + ([StateLiteral(W.SettlementUnknown)] + rest)))))
  {
    KeywordsFold();
    IsUnknownReads(after, rest);
    hide Lex, Fold, IsUnknownText, StateLiteral, STATE;
    var a3, t3 := IsUnknownText(after), [STATE] + (Sym("=") + ([StateLiteral(W.SettlementUnknown)] + rest));
    AMark("(", a3, t3);
    AWord("OR", "or", "(" + a3, Sym("(") + t3);
    Space("\n   ", "OR" + (" " + ("(" + a3)), [Token(Word, "or")] + (Sym("(") + t3));
  }

  lemma StatesRead(after: string, rest: seq<Token>)
    requires Lex(after) == Ok(rest)
    ensures Lex(StatesText(after))
         == Ok([STATE] + ([Token(Word, "in")] + (Sym("(") + ([StateLiteral(W.SettlementPending)]
               + (Sym(",") + ([StateLiteral(W.Active)] + (Sym(")") + rest)))))))
  {
    KeywordsFold();
    ColumnsFold();
    hide Lex, Fold;
    AMark(")", after, rest);
    var a1, t1 := ")" + after, Sym(")") + rest;
    AText("active", a1, t1);
    var a2, t2 := "'" + ("active" + "'") + a1, [StateLiteral(W.Active)] + t1;
    Space(" ", a2, t2);
    AMark(",", " " + a2, t2);
    var a3, t3 := "," + (" " + a2), Sym(",") + t2;
    AText("settlement_pending", a3, t3);
    var a4, t4 := "'" + ("settlement_pending" + "'") + a3, [StateLiteral(W.SettlementPending)] + t3;
    AMark("(", a4, t4);
    AWord("IN", "in", "(" + a4, Sym("(") + t4);
    var a5, t5 := "IN" + (" " + ("(" + a4)), [Token(Word, "in")] + (Sym("(") + t4);
    AWord("state", "state", a5, t5);
    Space("\n   ", "state" + (" " + a5), [STATE] + t5);
  }

  /** The store's own text is the predicate the model reasons about, token by token. */
  lemma OpenTextReads()
    ensures Lex(OpenObligationPredicate()) == Ok(Spell(OpenPredicate(), []))
  {
    assert "\n"[1..] == "" && Lex("\n") == Ok([]);
    ClearReads("\n", []);
    var clear := [Token(Word, "and")] + ([TERMINAL] + (Sym("=") + ([FlagLiteral(false)] + (Sym(")") + []))));
    UnknownReads(ClearText("\n"), clear);
    var unknown := [Token(Word, "or")] + (Sym("(") + ([STATE] + (Sym("=") + ([StateLiteral(W.SettlementUnknown)] + clear))));
    StatesRead(UnknownText(ClearText("\n")), unknown);
    hide Lex, StatesText, UnknownText, ClearText, StateLiteral, FlagLiteral;
    OpenSpelling(unknown);
  }

  lemma OpenSpelling(unknown: seq<Token>)
    requires unknown == [Token(Word, "or")] + (Sym("(") + ([STATE] + (Sym("=") + ([StateLiteral(W.SettlementUnknown)]
                          + ([Token(Word, "and")] + ([TERMINAL] + (Sym("=") + ([FlagLiteral(false)] + (Sym(")") + [])))))))))
    ensures Spell(OpenPredicate(), [])
         == [STATE] + ([Token(Word, "in")] + (Sym("(") + ([StateLiteral(W.SettlementPending)]
               + (Sym(",") + ([StateLiteral(W.Active)] + (Sym(")") + unknown))))))
  {
    hide StateLiteral, FlagLiteral, Sym;
  }

  // ---- The structural WHERE ----------------------------------------------------------------

  const WHERE: Token := Token(Word, "where")

  function Nesting(t: Token): int {
    if t == Token(Symbol, "(") then 1 else if t == Token(Symbol, ")") then -1 else 0
  }

  function Depth(ts: seq<Token>): int {
    if ts == [] then 0 else Depth(ts[..|ts| - 1]) + Nesting(ts[|ts| - 1])
  }

  /** This is the first WHERE outside all parentheses. */
  ghost predicate WhereAt(ts: seq<Token>, i: nat) {
    && i < |ts| && ts[i] == WHERE && Depth(ts[..i + 1]) == 0
    && forall j | 0 <= j < i :: !(ts[j] == WHERE && Depth(ts[..j + 1]) == 0)
  }

  lemma NoDepth(ts: seq<Token>)
    ensures Depth(ts[..0]) == 0
  {
  }

  lemma DepthStep(ts: seq<Token>, i: nat)
    requires i < |ts|
    ensures Depth(ts[..i + 1]) == Depth(ts[..i]) + Nesting(ts[i])
  {
    assert ts[..i + 1][..i] == ts[..i];
  }

  /** The search loop: quoted or commented text never reaches it as a word, and parentheses are counted. */
  method FindWhere(tokens: seq<Token>) returns (found: Option<nat>)
    ensures found.Some? ==> WhereAt(tokens, found.value)
    ensures found.None? ==> forall i :: !WhereAt(tokens, i)
  {
    var depth, i := 0, 0;
    hide Depth;
    NoDepth(tokens);
    while i < |tokens|
      invariant 0 <= i <= |tokens| && depth == Depth(tokens[..i])
      invariant forall j | 0 <= j < i :: !(tokens[j] == WHERE && Depth(tokens[..j + 1]) == 0)
    {
      DepthStep(tokens, i);
      if tokens[i] == Token(Symbol, "(") {
        depth := depth + 1;
      }
      if tokens[i] == Token(Symbol, ")") {
        depth := depth - 1;
      }
      if depth == 0 && tokens[i] == WHERE {
        return Some(i);
      }
      i := i + 1;
    }
    return None;
  }

  lemma OnlyOneWhere(ts: seq<Token>, i: nat, j: nat)
    requires WhereAt(ts, i) && WhereAt(ts, j)
    ensures i == j
  {
    hide Depth;
  }

  // ---- Acceptance --------------------------------------------------------------------------

  /** The predicate part of a definition: what follows its structural WHERE. */
  ghost predicate HasPredicate(sql: string, ts: seq<Token>) {
    exists i :: Lex(sql).Ok? && WhereAt(Lex(sql).value, i) && ts == Lex(sql).value[i + 1..]
  }

  /** The check accepts the definition: same normal form as the store's own text. */
  ghost predicate IndexAccepted(sql: string) {
    exists ts :: HasPredicate(sql, ts) && NormalForm(ts).Ok?
                 && Lex(OpenObligationPredicate()).Ok? && NormalForm(ts) == NormalForm(Lex(OpenObligationPredicate()).value)
  }

  /** hasOpenObligationPartialIndex, once the index is known to exist and to be partial. */
  method AcceptsDefinition(sql: string) returns (accepted: bool)
    ensures accepted == IndexAccepted(sql)
  {
    hide Lex, NormalForm, WhereAt, OpenObligationPredicate;
    var lexed := Tokenize(sql);
    if lexed.Thrown? {
      return false;
    }
    var where_ := FindWhere(lexed.value);
    if where_.None? {
      return false;
    }
    WhereInside(lexed.value, where_.value);
    var ts := lexed.value[where_.value + 1..];
    PredicateIs(sql, where_.value);
    var parser := new OpenIndexParser(ts);
    var form := parser.NormalizeAll();
    var own := Tokenize(OpenObligationPredicate());
    if form.Thrown? || own.Thrown? {
      return false;
    }
    var ownParser := new OpenIndexParser(own.value);
    var ownForm := ownParser.NormalizeAll();
    accepted := form == ownForm;
  }

  lemma WhereInside(ts: seq<Token>, i: nat)
    requires WhereAt(ts, i)
    ensures i < |ts|
  {
  }

  lemma PredicateIs(sql: string, i: nat)
    requires Lex(sql).Ok? && WhereAt(Lex(sql).value, i)
    ensures i < |Lex(sql).value| && forall ts :: HasPredicate(sql, ts) <==> ts == Lex(sql).value[i + 1..]
  {
    forall ts | HasPredicate(sql, ts) ensures ts == Lex(sql).value[i + 1..] {
      var j :| WhereAt(Lex(sql).value, j) && ts == Lex(sql).value[j + 1..];
      OnlyOneWhere(Lex(sql).value, i, j);
    }
  }

  /**
   A definition is accepted exactly when what follows its structural WHERE parses to a rearrangement of the
   open-obligation predicate.
   */
  lemma AcceptedExactly(sql: string)
    ensures IndexAccepted(sql)
       <==> exists ts :: HasPredicate(sql, ts) && Parse(ts).Ok? && Rearranged(Parse(ts).value, Meaning(OpenPredicate()))
  {
    OpenTextReads();
    OpenIsSpelled();
    hide Lex, Parse, HasPredicate, OpenObligationPredicate, OpenPredicate, Spell, Meaning, Rearranged, Normalize, Spelled;
    var own := Spell(OpenPredicate(), []);
    SpelledParses(OpenPredicate());
    forall ts: seq<Token> | Parse(ts).Ok?
      ensures NormalForm(ts) == NormalForm(own) <==> Rearranged(Parse(ts).value, Meaning(OpenPredicate()))
    {
      ParsedSorted(ts);
      ParsedSorted(own);
      SameNormalForm(Parse(ts).value, Parse(own).value);
    }
  }

  lemma ParsedSorted(ts: seq<Token>)
    requires Parse(ts).Ok?
    ensures SortedValues(Parse(ts).value)
  {
    OrSorted(ts);
    hide ParseOr, SortedValues;
  }

  /**
   From the text of the definition to the rows: whatever the index was created with, once the check accepts it
   the index contains exactly the open rows.
   */
  lemma AcceptedDefinitionHoldsOpenRows(sql: string, r: W.Row, other: RowReading)
    requires IndexAccepted(sql)
    ensures exists ts :: HasPredicate(sql, ts) && Parse(ts).Ok? && (Eval(Reading(r, other), Parse(ts).value) == True <==> W.Open(r))
  {
    OpenTextReads();
    hide Lex, HasPredicate, OpenObligationPredicate, OpenPredicate, Spell, Eval, Reading, W.Open, ParseOr;
    var ts :| HasPredicate(sql, ts) && NormalForm(ts).Ok? && Lex(OpenObligationPredicate()).Ok?
              && NormalForm(ts) == NormalForm(Lex(OpenObligationPredicate()).value);
    AcceptedIndexHoldsOpenRows(ts, r, other);
    assert Parse(ts).Ok?;
  }

  /** The store's own definition, whatever stands before its WHERE, is accepted. */
  lemma OwnDefinitionIsAccepted(sql: string, head: seq<Token>)
    requires Lex(sql) == Ok(head + ([WHERE] + Spell(OpenPredicate(), []))) && WhereAt(head + ([WHERE] + Spell(OpenPredicate(), [])), |head|)
    ensures IndexAccepted(sql)
  {
    OpenTextReads();
    OpenIsSpelled();
    hide Lex, WhereAt, OpenObligationPredicate, OpenPredicate, Spell, Meaning, Spelled, HasPredicate, ParseOr, Normalize;
    var own := Spell(OpenPredicate(), []);
    SpelledParses(OpenPredicate());
    PredicateIs(sql, |head|);
    AfterHead(head, own);
    assert HasPredicate(sql, own);
    assert NormalForm(own).Ok?;
  }

  lemma AfterHead(head: seq<Token>, own: seq<Token>)
    ensures (head + ([WHERE] + own))[|head| + 1..] == own
  {
  }
}

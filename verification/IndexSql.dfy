/**
 The lexer for index definitions: quotes and comments can never leak a structural token, and every
 token sequence it can produce has a text that produces exactly it.
 */
module IndexSql {
  import opened Common

  datatype Kind = Word | Identifier | Text | Integer | Symbol

  datatype Token = Token(kind: Kind, value: string)

  // ---- Characters --------------------------------------------------------------------------

  const BOM: char := '\U{FEFF}'

  predicate Trivia(c: char) {
    c == ' ' || c == '\t' || c == '\n' || c == '\r' || c == '\U{C}' || c == BOM
  }

  predicate Upper(c: char) { 'A' <= c <= 'Z' }

  predicate Digit(c: char) { '0' <= c <= '9' }

  predicate WordStart(c: char) { 'a' <= c <= 'z' || Upper(c) || c == '_' }

  predicate WordPart(c: char) { WordStart(c) || Digit(c) || c == '$' || c == BOM }

  predicate Opening(c: char) { c == '\'' || c == '\"' || c == '`' || c == '[' }

  function Closing(c: char): char { if c == '[' then ']' else c }

  function Lower(c: char): char { if Upper(c) then (c as int + 32) as char else c }

  /** sqliteIdentifier: ASCII case folding. */
  function Fold(s: string): string {
    if s == "" then "" else [Lower(s[0])] + Fold(s[1..])
  }

  // ---- Pieces of the scan ------------------------------------------------------------------

  /** How much a line comment takes, its line feed included. */
  function LineLength(s: string): (n: nat)
    ensures n <= |s|
  {
    if s == "" then 0 else if s[0] == '\n' then 1 else 1 + LineLength(s[1..])
  }

  /** How much a block comment takes, its terminator included; an open one runs to the end. */
  function BlockLength(s: string): (n: nat)
    ensures n <= |s|
  {
    if |s| < 2 then |s| else if s[0] == '*' && s[1] == '/' then 2 else 1 + BlockLength(s[1..])
  }

  function WordLength(s: string): (n: nat)
    ensures n <= |s|
  {
    if s == "" || !WordPart(s[0]) then 0 else 1 + WordLength(s[1..])
  }

  function DigitsLength(s: string): (n: nat)
    ensures n <= |s|
  {
    if s == "" || !Digit(s[0]) then 0 else 1 + DigitsLength(s[1..])
  }

  function StripZeros(s: string): string {
    if |s| > 1 && s[0] == '0' && Digit(s[1]) then StripZeros(s[1..]) else s
  }

  /** The contents of a quotation and how much text it takes, closing quote included. */
  function Quoted(s: string, opening: char): (q: Result<(string, nat)>)
    ensures q.Ok? ==> 0 < q.value.1 <= |s|
  {
    if s == "" then Thrown
    else if s[0] != Closing(opening) then Prefixed([s[0]], 1, Quoted(s[1..], opening))
    else if opening != '[' && |s| > 1 && s[1] == Closing(opening) then Prefixed([Closing(opening)], 2, Quoted(s[2..], opening))
    else Ok(("", 1))
  }

  function Prefixed(value: string, taken: nat, q: Result<(string, nat)>): Result<(string, nat)> {
    if q.Thrown? then Thrown else Ok((value + q.value.0, taken + q.value.1))
  }

  function Prepend(tokens: seq<Token>, r: Result<seq<Token>>): Result<seq<Token>> {
    if r.Thrown? then Thrown else Ok(tokens + r.value)
  }

  function QuotedToken(opening: char, value: string): Token {
    if opening == '\'' then Token(Text, value) else Token(Identifier, Fold(value))
  }

  predicate StartsWith(s: string, a: char, b: char) { |s| >= 2 && s[0] == a && s[1] == b }

  /** What one step of the scan does with the text in front of it. */
  datatype Step = Skip(taken: nat) | Emit(token: Token, taken: nat) | Unterminated

  function Scan(s: string): (step: Step)
    requires s != ""
    ensures !step.Unterminated? ==> 0 < step.taken <= |s|
  {
    if Trivia(s[0]) then Skip(1)
    else if StartsWith(s, '-', '-') then Skip(2 + LineLength(s[2..]))
    else if StartsWith(s, '/', '*') then Skip(2 + BlockLength(s[2..]))
    else if Opening(s[0]) then
      var q := Quoted(s[1..], s[0]);
      if q.Thrown? then Unterminated else Emit(QuotedToken(s[0], q.value.0), 1 + q.value.1)
    else if WordStart(s[0]) then Emit(Token(Word, Fold(s[..WordLength(s)])), WordLength(s))
    else if Digit(s[0]) then Emit(Token(Integer, StripZeros(s[..DigitsLength(s)])), DigitsLength(s))
    else Emit(Token(Symbol, [s[0]]), 1)
  }

  /** tokenizeOpenIndexSql as a function of the remaining text. */
  function Lex(s: string): Result<seq<Token>>
    decreases |s|
  {
    if s == "" then Ok([])
    else
      match Scan(s)
      case Skip(n) => Lex(s[n..])
      case Emit(t, n) => Prepend([t], Lex(s[n..]))
      case Unterminated => Thrown
  }

  // ---- The scanning loop -------------------------------------------------------------------

  lemma PrependTwice(a: seq<Token>, b: seq<Token>, r: Result<seq<Token>>)
    ensures Prepend(a, Prepend(b, r)) == Prepend(a + b, r) && Prepend([], r) == r
  {
    if r.Ok? { assert a + (b + r.value) == (a + b) + r.value && [] + r.value == r.value; }
  }

  lemma PrefixedTwice(v: string, m: nat, w: string, n: nat, q: Result<(string, nat)>)
    ensures Prefixed(v, m, Prefixed(w, n, q)) == Prefixed(v + w, m + n, q) && Prefixed("", 0, q) == q
  {
    if q.Ok? { assert v + (w + q.value.0) == (v + w) + q.value.0 && "" + q.value.0 == q.value.0; }
  }

  /** One quotation, read character by character from just after its opening quote. */
  method ReadQuoted(sql: string, start: nat, opening: char) returns (closed: bool, value: string, offset: nat)
    requires start <= |sql|
    ensures closed == Quoted(sql[start..], opening).Ok?
    ensures closed ==> start < offset <= |sql| && Quoted(sql[start..], opening) == Ok((value, offset - start))
  {
    hide Quoted, Prefixed;
    var closing := Closing(opening);
    value, closed, offset := "", false, start;
    PrefixedTwice("", 0, "", 0, Quoted(sql[start..], opening));
    while offset < |sql|
      invariant start <= offset <= |sql|
      invariant Quoted(sql[start..], opening) == Prefixed(value, offset - start, Quoted(sql[offset..], opening))
    {
      QuotedStep(sql, start, offset, value, opening);
      var next := sql[offset];
      offset := offset + 1;
      if next != closing {
        value := value + [next];
      } else if opening != '[' && offset < |sql| && sql[offset] == closing {
        value := value + [closing];
        offset := offset + 1;
      } else {
        return true, value, offset;
      }
    }
    assert sql[offset..] == "";
    OpenQuote(value, offset - start, opening);
  }

  lemma OpenQuote(value: string, taken: nat, opening: char)
    ensures Prefixed(value, taken, Quoted("", opening)) == Thrown
  {
  }

  /** One character of a quotation, seen from its start. */
  lemma QuotedStep(sql: string, start: nat, offset: nat, value: string, opening: char)
    requires start <= offset < |sql|
    ensures var before := Prefixed(value, offset - start, Quoted(sql[offset..], opening));
            var closing := Closing(opening);
            if sql[offset] != closing then before == Prefixed(value + [sql[offset]], offset + 1 - start, Quoted(sql[offset + 1..], opening))
            else if opening != '[' && offset + 1 < |sql| && sql[offset + 1] == closing
            then before == Prefixed(value + [closing], offset + 2 - start, Quoted(sql[offset + 2..], opening))
            else before == Ok((value, offset + 1 - start))
  {
    var rest, closing := sql[offset..], Closing(opening);
    assert rest[1..] == sql[offset + 1..];
    assert |rest| > 1 ==> rest[2..] == sql[offset + 2..];
    PrefixedTwice(value, offset - start, [sql[offset]], 1, Quoted(rest[1..], opening));
    if sql[offset] == closing {
      if opening != '[' && offset + 1 < |sql| && sql[offset + 1] == closing {
        PrefixedTwice(value, offset - start, [closing], 2, Quoted(rest[2..], opening));
      } else {
        assert value + "" == value;
      }
    }
  }

  lemma NothingLeft(tokens: seq<Token>)
    ensures Prepend(tokens, Lex("")) == Ok(tokens)
  {
    assert tokens + [] == tokens;
  }

  /** One step of the scan, seen from the whole text. */
  lemma Advance(sql: string, offset: nat, tokens: seq<Token>)
    requires offset < |sql|
    ensures match Scan(sql[offset..])
            case Skip(n) => Prepend(tokens, Lex(sql[offset..])) == Prepend(tokens, Lex(sql[offset + n..]))
            case Emit(t, n) => Prepend(tokens, Lex(sql[offset..])) == Prepend(tokens + [t], Lex(sql[offset + n..]))
            case Unterminated => Prepend(tokens, Lex(sql[offset..])) == Thrown
  {
    hide Scan;
    var rest := sql[offset..];
    match Scan(rest) {
      case Skip(n) => assert rest[n..] == sql[offset + n..];
      case Emit(t, n) =>
        assert rest[n..] == sql[offset + n..];
        PrependTwice(tokens, [t], Lex(rest[n..]));
      case Unterminated =>
    }
  }

  /** The branches of the loop body: what stands at the offset, and how much of the text it takes. */
  method ScanAt(sql: string, offset: nat) returns (step: Step)
    requires offset < |sql|
    ensures step == Scan(sql[offset..])
  {
    hide Quoted, LineLength, BlockLength, WordLength, DigitsLength, Fold, StripZeros;
    var rest := sql[offset..];
    var character := rest[0];
    if Trivia(character) {
      return Skip(1);
    }
    if StartsWith(rest, '-', '-') {
      return Skip(2 + LineLength(rest[2..]));
    }
    if StartsWith(rest, '/', '*') {
      return Skip(2 + BlockLength(rest[2..]));
    }
    if Opening(character) {
      assert rest[1..] == sql[offset + 1..];
      var closed, value, next := ReadQuoted(sql, offset + 1, character);
      if !closed {
        return Unterminated;
      }
      return Emit(QuotedToken(character, value), next - offset);
    }
    if WordStart(character) {
      var taken := WordLength(rest);
      return Emit(Token(Word, Fold(rest[..taken])), taken);
    }
    if Digit(character) {
      var taken := DigitsLength(rest);
      return Emit(Token(Integer, StripZeros(rest[..taken])), taken);
    }
    return Emit(Token(Symbol, [character]), 1);
  }

  method Tokenize(sql: string) returns (result: Result<seq<Token>>)
    ensures result == Lex(sql)
  {
    hide Lex, Prepend, Scan;
    var tokens: seq<Token> := [];
    var offset := 0;
    assert sql[0..] == sql;
    PrependTwice([], [], Lex(sql));
    while offset < |sql|
      invariant offset <= |sql| && Prepend(tokens, Lex(sql[offset..])) == Lex(sql)
    {
      Advance(sql, offset, tokens);
      var step := ScanAt(sql, offset);
      match step {
        case Skip(taken) => offset := offset + taken;
        case Emit(token, taken) =>
          tokens := tokens + [token];
          offset := offset + taken;
        case Unterminated => return Thrown;
      }
    }
    assert sql[offset..] == "";
    NothingLeft(tokens);
    return Ok(tokens);
  }

  // ---- Writing tokens and reading them back ------------------------------------------------

  function Doubled(s: string, quote: char): string {
    if s == "" then "" else (if s[0] == quote then [quote, quote] else [s[0]]) + Doubled(s[1..], quote)
  }

  function Write(t: Token): string {
    match t.kind
    case Identifier => "\"" + (Doubled(t.value, '\"') + "\"")
    case Text => "'" + (Doubled(t.value, '\'') + "'")
    case _ => t.value
  }

  function WriteAll(tokens: seq<Token>): string {
    if tokens == [] then "" else Write(tokens[0]) + (" " + WriteAll(tokens[1..]))
  }

  predicate Folded(s: string) { forall c <- s :: !Upper(c) }

  /** A token the lexer can produce. */
  predicate Lexical(t: Token) {
    match t.kind
    case Word => t.value != "" && WordStart(t.value[0]) && (forall c <- t.value :: WordPart(c)) && Folded(t.value)
    case Identifier => Folded(t.value)
    case Text => true
    case Integer => t.value != "" && (forall c <- t.value :: Digit(c)) && (|t.value| > 1 ==> t.value[0] != '0')
    case Symbol => |t.value| == 1 && !Trivia(t.value[0]) && !WordStart(t.value[0]) && !Digit(t.value[0]) && !Opening(t.value[0])
  }

  lemma {:induction false} FoldedIsFolded(s: string)
    ensures Folded(Fold(s)) && |Fold(s)| == |s|
    ensures Folded(s) ==> Fold(s) == s
  {
    if s != "" {
      FoldedIsFolded(s[1..]);
      assert s == [s[0]] + s[1..];
      if Folded(s) { assert forall c <- s[1..] :: c in s; }
    }
  }

  lemma {:induction false} DoubledReads(s: string, quote: char, after: string)
    requires quote == '\"' || quote == '\''
    requires after == "" || after[0] != quote
    ensures Quoted(Doubled(s, quote) + ([quote] + after), quote) == Ok((s, |Doubled(s, quote)| + 1))
  {
    var all := Doubled(s, quote) + ([quote] + after);
    if s == "" {
      assert all[0] == quote && (|all| > 1 ==> all[1] == after[0]);
    } else {
      var tail := Doubled(s[1..], quote) + ([quote] + after);
      DoubledReads(s[1..], quote, after);
      assert s == [s[0]] + s[1..];
      if s[0] == quote {
        assert all == [quote, quote] + tail;
        assert all[2..] == tail;
      } else {
        assert all == [s[0]] + tail;
        assert all[1..] == tail;
      }
    }
  }

  lemma {:induction false} WholeWord(s: string, after: string)
    requires (forall c <- s :: WordPart(c)) && after != "" && !WordPart(after[0])
    ensures WordLength(s + after) == |s|
  {
    if s == "" {
      assert s + after == after;
    } else {
      assert (s + after)[0] == s[0] && (s + after)[1..] == s[1..] + after;
      WholeWord(s[1..], after);
    }
  }

  lemma {:induction false} WholeNumber(s: string, after: string)
    requires (forall c <- s :: Digit(c)) && after != "" && !Digit(after[0])
    ensures DigitsLength(s + after) == |s|
  {
    if s == "" {
      assert s + after == after;
    } else {
      assert (s + after)[0] == s[0] && (s + after)[1..] == s[1..] + after;
      WholeNumber(s[1..], after);
    }
  }

  lemma StartsWord(s: string)
    requires s != "" && WordStart(s[0])
    ensures Scan(s) == Emit(Token(Word, Fold(s[..WordLength(s)])), WordLength(s))
  {
  }

  lemma StartsNumber(s: string)
    requires s != "" && Digit(s[0])
    ensures Scan(s) == Emit(Token(Integer, StripZeros(s[..DigitsLength(s)])), DigitsLength(s))
  {
  }

  lemma WrittenWordReads(t: Token, rest: string)
    requires Lexical(t) && t.kind == Word
    ensures Lex(Write(t) + (" " + rest)) == Prepend([t], Lex(" " + rest))
  {
    var after := " " + rest;
    var all := Write(t) + after;
    WholeWord(t.value, after);
    FoldedIsFolded(t.value);
    assert all[..|t.value|] == t.value && all[|t.value|..] == after && all[0] == t.value[0];
    StartsWord(all);
    hide Scan, Fold, WordLength, WordPart;
  }

  lemma WrittenIntegerReads(t: Token, rest: string)
    requires Lexical(t) && t.kind == Integer
    ensures Lex(Write(t) + (" " + rest)) == Prepend([t], Lex(" " + rest))
  {
    var after := " " + rest;
    var all := Write(t) + after;
    WholeNumber(t.value, after);
    assert all[..|t.value|] == t.value && all[|t.value|..] == after && all[0] == t.value[0] && t.value[0] in t.value;
    StartsNumber(all);
    hide Scan, DigitsLength;
  }

  lemma WrittenSymbolReads(t: Token, rest: string)
    requires Lexical(t) && t.kind == Symbol
    ensures Lex(Write(t) + (" " + rest)) == Prepend([t], Lex(" " + rest))
  {
    hide Fold, WordLength, DigitsLength, StripZeros, Quoted;
    var all := Write(t) + (" " + rest);
    assert all[0] == t.value[0] && all[1] == ' ' && all[1..] == " " + rest;
    assert t.value == [t.value[0]];
  }

  /** One written token, followed by a space, is read back as that token. */
  lemma WrittenTokenReads(t: Token, rest: string)
    requires Lexical(t)
    ensures Lex(Write(t) + (" " + rest)) == Prepend([t], Lex(" " + rest))
  {
    hide Lex;
    match t.kind {
      case Word => WrittenWordReads(t, rest);
      case Integer => WrittenIntegerReads(t, rest);
      case Symbol => WrittenSymbolReads(t, rest);
      case Identifier => QuotedReads(t.value, '\"', " " + rest); FoldedIsFolded(t.value);
      case Text => QuotedReads(t.value, '\'', " " + rest);
    }
  }

  lemma QuotedReads(value: string, quote: char, after: string)
    requires quote == '\"' || quote == '\''
    requires after != "" && after[0] != quote
    ensures Lex([quote] + (Doubled(value, quote) + [quote]) + after) == Prepend([QuotedToken(quote, value)], Lex(after))
  {
    hide Quoted, Doubled, Fold;
    var body := Doubled(value, quote) + ([quote] + after);
    var all := [quote] + (Doubled(value, quote) + [quote]) + after;
    DoubledReads(value, quote, after);
    assert all == [quote] + body;
    assert all[1..] == body;
    var n := |Doubled(value, quote)| + 1;
    assert body[n..] == after;
    assert all[1 + n..] == after;
    assert Scan(all) == Emit(QuotedToken(quote, value), 1 + n);
  }

  /** Writing tokens and reading them back gives exactly those tokens: nothing leaks out of a quote. */
  lemma {:induction false} WrittenTokensRead(tokens: seq<Token>)
    requires forall t <- tokens :: Lexical(t)
    ensures Lex(WriteAll(tokens)) == Ok(tokens)
    decreases |tokens|
  {
    if tokens != [] {
      var rest := WriteAll(tokens[1..]);
      WrittenTokenReads(tokens[0], rest);
      WrittenTokensRead(tokens[1..]);
      assert (" " + rest)[1..] == rest;
      assert Lex(" " + rest) == Lex(rest);
      assert tokens == [tokens[0]] + tokens[1..];
    }
  }

  lemma {:induction false} FoldKeepsWords(s: string)
    requires forall c <- s :: WordPart(c)
    ensures forall c <- Fold(s) :: WordPart(c)
    ensures s != "" && WordStart(s[0]) ==> Fold(s) != "" && WordStart(Fold(s)[0])
  {
    if s != "" { FoldKeepsWords(s[1..]); }
  }

  lemma {:induction false} WordPrefix(s: string)
    ensures forall c <- s[..WordLength(s)] :: WordPart(c)
  {
    if s != "" && WordPart(s[0]) {
      WordPrefix(s[1..]);
      assert s[..WordLength(s)] == [s[0]] + s[1..][..WordLength(s[1..])];
    }
  }

  lemma {:induction false} DigitPrefix(s: string)
    ensures forall c <- s[..DigitsLength(s)] :: Digit(c)
  {
    if s != "" && Digit(s[0]) {
      DigitPrefix(s[1..]);
      assert s[..DigitsLength(s)] == [s[0]] + s[1..][..DigitsLength(s[1..])];
    }
  }

  lemma {:induction false} StrippedIsCanonical(s: string)
    requires s != "" && forall c <- s :: Digit(c)
    ensures StripZeros(s) != "" && (forall c <- StripZeros(s) :: Digit(c)) && (|StripZeros(s)| > 1 ==> StripZeros(s)[0] != '0')
  {
    if |s| > 1 && s[0] == '0' {
      assert s[1] in s;
      StrippedIsCanonical(s[1..]);
    }
  }

  lemma ScannedIsLexical(s: string)
    requires s != "" && Scan(s).Emit?
    ensures Lexical(Scan(s).token)
  {
    if Opening(s[0]) {
      var q := Quoted(s[1..], s[0]);
      if q.Ok? { FoldedIsFolded(q.value.0); }
    } else if WordStart(s[0]) {
      var word := s[..WordLength(s)];
      WordPrefix(s);
      FoldedIsFolded(word);
      FoldKeepsWords(word);
    } else if Digit(s[0]) {
      DigitPrefix(s);
      StrippedIsCanonical(s[..DigitsLength(s)]);
    }
  }

  /** The lexer's results are exactly the sequences of lexical tokens. */
  lemma {:induction false} LexedAreLexical(s: string)
    requires Lex(s).Ok?
    ensures forall t <- Lex(s).value :: Lexical(t)
    decreases |s|
  {
    hide Scan, Lexical;
    if s != "" {
      match Scan(s) {
        case Skip(n) => LexedAreLexical(s[n..]);
        case Emit(t, n) =>
          ScannedIsLexical(s);
          LexedAreLexical(s[n..]);
        case Unterminated =>
      }
    }
  }
}

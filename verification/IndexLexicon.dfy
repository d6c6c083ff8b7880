/** What each step of the index lexer takes from the text in front of it, position by position. */
module IndexLexicon {
  import opened Common
  import opened IndexSql

  predicate White(c: char) { c in {' ', '\t', '\n', '\r', '\U{C}', '\U{FEFF}'} }

  predicate Letter(c: char) { 'a' <= c <= 'z' || 'A' <= c <= 'Z' || c == '_' }

  predicate NamePart(c: char) { Letter(c) || '0' <= c <= '9' || c == '$' || c == '\U{FEFF}' }

  /** ASCII capitals become small, everything else stays. */
  predicate Small(s: string, folded: string) {
    |folded| == |s| && forall i | 0 <= i < |s| ::
      if 'A' <= s[i] <= 'Z' then folded[i] as int - 'a' as int == s[i] as int - 'A' as int else folded[i] == s[i]
  }

  /** A line comment ends with its line feed, or with the text. */
  predicate LineComment(s: string, n: nat) {
    && 2 <= n <= |s| && s[0] == '-' && s[1] == '-'
    && (forall i | 2 <= i < n - 1 :: s[i] != '\n') && (n == |s| || (n > 2 && s[n - 1] == '\n'))
  }

  /** The end of a block comment at this place. */
  predicate EndsAt(s: string, i: nat) { i + 1 < |s| && s[i] == '*' && s[i + 1] == '/' }

  /** A block comment ends with the first terminator after its opening, or with the text. */
  predicate BlockComment(s: string, n: nat) {
    && 2 <= n <= |s| && s[0] == '/' && s[1] == '*'
    && (forall i | 2 <= i < n - 2 :: !EndsAt(s, i))
    && ((n >= 4 && EndsAt(s, n - 2)) || (n == |s| && forall i | 2 <= i < |s| :: !EndsAt(s, i)))
  }

  predicate NameAt(s: string, n: nat, t: Token) {
    && 1 <= n <= |s| && Letter(s[0]) && (forall i | 0 <= i < n :: NamePart(s[i])) && (n == |s| || !NamePart(s[n]))
    && t.kind.Word? && Small(s[..n], t.value)
  }

  /** A number, without the zeros that stand in front of it. */
  predicate NumberAt(s: string, n: nat, t: Token) {
    && 1 <= n <= |s| && (forall i | 0 <= i < n :: '0' <= s[i] <= '9') && (n == |s| || !('0' <= s[n] <= '9'))
    && t.kind.Integer? && 1 <= |t.value| <= n && t.value == s[n - |t.value|..n]
    && (forall i | 0 <= i < n - |t.value| :: s[i] == '0') && (|t.value| == 1 || t.value[0] != '0')
  }

  /** The text between quotes: a doubled closing quote stands for one; brackets cannot be doubled. */
  predicate Inside(s: string, opening: char, value: string) {
    if opening == '[' then s == value && (forall c <- value :: c != ']') else s == Doubled(value, opening)
  }

  ghost predicate QuotationAt(s: string, n: nat, t: Token) {
    && 2 <= n <= |s| && s[0] in {'\'', '\"', '`', '['} && s[n - 1] == (if s[0] == '[' then ']' else s[0])
    && (s[0] == '[' || n == |s| || s[n] != s[0])
    && exists value :: Inside(s[1..n - 1], s[0], value)
                       && (if s[0] == '\'' then t == Token(Text, value) else t.kind.Identifier? && Small(value, t.value))
  }

  predicate MarkAt(s: string, n: nat, t: Token) {
    && n == 1 && |s| >= 1 && !White(s[0]) && !Letter(s[0]) && !('0' <= s[0] <= '9') && s[0] !in {'\'', '\"', '`', '['}
    && !(|s| >= 2 && ((s[0] == '-' && s[1] == '-') || (s[0] == '/' && s[1] == '*')))
    && t == Token(Symbol, [s[0]])
  }

  // ---- The pieces --------------------------------------------------------------------------

  lemma {:induction false} FoldIsSmall(s: string)
    ensures Small(s, Fold(s))
  {
    if s != "" {
      FoldIsSmall(s[1..]);
      var rest := Fold(s[1..]);
      forall i | 0 <= i < |s|
        ensures if 'A' <= s[i] <= 'Z' then Fold(s)[i] as int - 'a' as int == s[i] as int - 'A' as int else Fold(s)[i] == s[i]
      {
        if i > 0 { assert s[i] == s[1..][i - 1] && Fold(s)[i] == rest[i - 1]; }
      }
    }
  }

  lemma {:induction false} LineEnds(s: string)
    ensures var n := LineLength(s); (forall i | 0 <= i < n - 1 :: s[i] != '\n') && (n == |s| || (n > 0 && s[n - 1] == '\n'))
  {
    if s != "" && s[0] != '\n' {
      LineEnds(s[1..]);
      var n := LineLength(s[1..]);
      forall i | 0 <= i < n ensures s[i] != '\n' || i == n { if i > 0 { assert s[i] == s[1..][i - 1]; } }
      if n > 0 { assert s[n] == s[1..][n - 1]; }
    }
  }

  lemma {:induction false} BlockEnds(s: string)
    ensures var n := BlockLength(s);
            && (forall i | 0 <= i < n - 2 :: !EndsAt(s, i))
            && ((n >= 2 && EndsAt(s, n - 2)) || (n == |s| && forall i | 0 <= i < |s| :: !EndsAt(s, i)))
  {
    if |s| >= 2 && !(s[0] == '*' && s[1] == '/') {
      BlockEnds(s[1..]);
      var n := BlockLength(s[1..]);
      forall i: nat | 1 <= i < |s| ensures EndsAt(s, i) <==> EndsAt(s[1..], i - 1) { }
    }
  }

  lemma {:induction false} WordEnds(s: string)
    ensures var n := WordLength(s); (forall i | 0 <= i < n :: NamePart(s[i])) && (n == |s| || !NamePart(s[n]))
  {
    if s != "" && WordPart(s[0]) {
      WordEnds(s[1..]);
      var n := WordLength(s[1..]);
      forall i | 0 <= i < n + 1 ensures NamePart(s[i]) { if i > 0 { assert s[i] == s[1..][i - 1]; } }
    }
  }

  lemma {:induction false} DigitsEnd(s: string)
    ensures var n := DigitsLength(s); (forall i | 0 <= i < n :: '0' <= s[i] <= '9') && (n == |s| || !('0' <= s[n] <= '9'))
  {
    if s != "" && Digit(s[0]) {
      DigitsEnd(s[1..]);
      var n := DigitsLength(s[1..]);
      forall i | 0 <= i < n + 1 ensures '0' <= s[i] <= '9' { if i > 0 { assert s[i] == s[1..][i - 1]; } }
    }
  }

  lemma {:induction false} ZerosStripped(s: string)
    requires s != "" && forall i | 0 <= i < |s| :: '0' <= s[i] <= '9'
    ensures var v := StripZeros(s);
            && 1 <= |v| <= |s| && v == s[|s| - |v|..] && (forall i | 0 <= i < |s| - |v| :: s[i] == '0') && (|v| == 1 || v[0] != '0')
  {
    if |s| > 1 && s[0] == '0' {
      ZerosStripped(s[1..]);
      var v := StripZeros(s[1..]);
      forall i | 0 <= i < |s| - |v| ensures s[i] == '0' { if i > 0 { assert s[i] == s[1..][i - 1]; } }
      assert s[1..][|s| - 1 - |v|..] == s[|s| - |v|..];
    }
  }

  lemma InsideNothing(opening: char)
    ensures Inside("", opening, "")
  {
  }

  lemma InsidePlain(c: char, s: string, opening: char, value: string)
    requires Inside(s, opening, value) && c != Closing(opening) && Opening(opening)
    ensures Inside([c] + s, opening, [c] + value)
  {
    assert ([c] + value)[1..] == value;
  }

  lemma InsideDoubled(s: string, opening: char, value: string)
    requires Inside(s, opening, value) && opening != '['
    ensures Inside([opening, opening] + s, opening, [opening] + value)
  {
    assert ([opening] + value)[1..] == value;
  }

  lemma {:induction false} QuoteEnds(s: string, opening: char)
    requires Quoted(s, opening).Ok? && Opening(opening)
    ensures var (value, n) := Quoted(s, opening).value;
            && 1 <= n <= |s| && s[n - 1] == Closing(opening) && Inside(s[..n - 1], opening, value)
            && (opening == '[' || n == |s| || s[n] != opening)
  {
    hide Inside;
    var (value, n) := Quoted(s, opening).value;
    if s[0] != Closing(opening) {
      QuoteEnds(s[1..], opening);
      var (rest, m) := Quoted(s[1..], opening).value;
      InsidePlain(s[0], s[1..][..m - 1], opening, rest);
      assert s[..n - 1] == [s[0]] + s[1..][..m - 1];
    } else if opening != '[' && |s| > 1 && s[1] == Closing(opening) {
      QuoteEnds(s[2..], opening);
      var (rest, m) := Quoted(s[2..], opening).value;
      InsideDoubled(s[2..][..m - 1], opening, rest);
      assert s[..n - 1] == [opening, opening] + s[2..][..m - 1];
    } else {
      InsideNothing(opening);
      assert s[..0] == "";
    }
  }

  /** No closing quote that is not doubled is left. */
  lemma {:induction false} NeverClosed(s: string, opening: char, n: nat, value: string)
    requires Opening(opening) && n < |s| && s[n] == Closing(opening) && Inside(s[..n], opening, value)
    requires opening == '[' || n + 1 == |s| || s[n + 1] != opening
    ensures Quoted(s, opening).Ok?
    decreases |s|
  {
    if value != "" {
      if opening == '[' || value[0] != opening {
        assert s[0] == s[..n][0] == value[0];
        if opening == '[' { assert value[0] in value; }
        assert s[1..][..n - 1] == s[..n][1..];
        if opening == '[' { assert forall c <- value[1..] :: c in value; }
        NeverClosed(s[1..], opening, n - 1, value[1..]);
      } else {
        assert s[..n][0] == opening && s[..n][1] == opening;
        assert s[2..][..n - 2] == s[..n][2..];
        NeverClosed(s[2..], opening, n - 2, value[1..]);
      }
    } else {
      assert n == 0;
    }
  }

  // ---- The step ----------------------------------------------------------------------------

  lemma CommentStep(s: string)
    requires s != "" && !White(s[0])
    ensures StartsWith(s, '-', '-') ==> Scan(s).Skip? && LineComment(s, Scan(s).taken)
    ensures StartsWith(s, '/', '*') ==> Scan(s).Skip? && BlockComment(s, Scan(s).taken)
  {
    if StartsWith(s, '-', '-') {
      LineEnds(s[2..]);
      assert forall i | 2 <= i < |s| :: s[i] == s[2..][i - 2];
    } else if StartsWith(s, '/', '*') {
      BlockEnds(s[2..]);
      assert forall i: nat | 2 <= i < |s| :: EndsAt(s, i) <==> EndsAt(s[2..], i - 2);
    }
  }

  lemma QuoteCloses(s: string)
    requires s != "" && Opening(s[0]) && Quoted(s[1..], s[0]).Ok?
    ensures Scan(s).Emit? && QuotationAt(s, Scan(s).taken, Scan(s).token)
  {
    hide Quoted, Inside, Small, Fold;
    QuoteEnds(s[1..], s[0]);
    var (value, m) := Quoted(s[1..], s[0]).value;
    FoldIsSmall(value);
    assert s[1..][..m - 1] == s[1..m];
    assert Inside(s[1..m], s[0], value);
  }

  lemma QuoteOpen(s: string, n: nat, t: Token)
    requires s != "" && Opening(s[0]) && QuotationAt(s, n, t)
    ensures Quoted(s[1..], s[0]).Ok?
  {
    hide Quoted, Inside, Small, Fold;
    var value :| Inside(s[1..n - 1], s[0], value);
    assert s[1..][..n - 2] == s[1..n - 1];
    NeverClosed(s[1..], s[0], n - 2, value);
  }

  lemma QuoteStep(s: string)
    requires s != "" && Opening(s[0])
    ensures match Scan(s)
            case Emit(t, n) => QuotationAt(s, n, t)
            case Skip(_) => false
            case Unterminated => forall n: nat, t :: !QuotationAt(s, n, t)
  {
    hide Quoted, QuotationAt;
    if Quoted(s[1..], s[0]).Ok? {
      QuoteCloses(s);
    } else {
      forall n: nat, t ensures !QuotationAt(s, n, t) {
        if QuotationAt(s, n, t) { QuoteOpen(s, n, t); }
      }
    }
  }

  lemma NameStep(s: string)
    requires s != "" && Letter(s[0])
    ensures Scan(s).Emit? && NameAt(s, Scan(s).taken, Scan(s).token)
  {
    hide WordLength, Fold, Small;
    WordEnds(s);
    FoldIsSmall(s[..WordLength(s)]);
  }

  lemma NumberStep(s: string)
    requires s != "" && Digit(s[0])
    ensures Scan(s).Emit? && NumberAt(s, Scan(s).taken, Scan(s).token)
  {
    hide DigitsLength, StripZeros;
    DigitsEnd(s);
    var digits := s[..DigitsLength(s)];
    ZerosStripped(digits);
    var v := StripZeros(digits);
    assert digits[|digits| - |v|..] == s[|digits| - |v|..|digits|];
  }

  /**
   One step of the lexer: white space is skipped one character at a time; a line comment up to its line feed and a
   block comment up to its first terminator, or to the end of the text; a quotation is read to its first closing quote
   that is not doubled, and fails if there is none; a name or a number is as long as it can be, names fold to small
   letters and numbers lose leading zeros; anything else is a symbol.
   */
  lemma ScanSays(s: string)
    requires s != ""
    ensures match Scan(s)
            case Skip(n) => (n == 1 && White(s[0])) || LineComment(s, n) || BlockComment(s, n)
            case Emit(t, n) => QuotationAt(s, n, t) || NameAt(s, n, t) || NumberAt(s, n, t) || MarkAt(s, n, t)
            case Unterminated => s[0] in {'\'', '\"', '`', '['} && forall n: nat, t :: !QuotationAt(s, n, t)
  {
    if !White(s[0]) { CommentStep(s); }
    if Opening(s[0]) { QuoteStep(s); }
    if Letter(s[0]) { NameStep(s); } else if Digit(s[0]) { NumberStep(s); }
    hide LineComment, BlockComment, QuotationAt, NameAt, NumberAt, LineLength, BlockLength, WordLength, DigitsLength, Quoted;
    if White(s[0]) {
    } else if StartsWith(s, '-', '-') || StartsWith(s, '/', '*') {
    } else if Opening(s[0]) {
    } else if Letter(s[0]) || Digit(s[0]) {
    } else {
    }
  }
}

/**
 The parser for index predicates: a class that moves an offset through the tokens, proved equal to a
 grammar over the remaining tokens, and the grammar proved to read back everything it can express.
 */
module IndexParser {
  import opened Common
  import opened JsonText
  import opened StringOrder
  import opened IndexSql
  import opened IndexPredicate

  // ---- The grammar -------------------------------------------------------------------------

  predicate Next(ts: seq<Token>, kind: Kind, value: string) {
    ts != [] && ts[0] == Token(kind, value)
  }

  function KindName(kind: Kind): string {
    match kind case Word => "word" case Identifier => "identifier" case Text => "string" case Integer => "integer" case Symbol => "symbol"
  }

  predicate IsLiteral(t: Token) { t.kind == Text || t.kind == Integer }

  predicate IsColumn(t: Token) { t.kind == Word || t.kind == Identifier }

  function LiteralText(t: Token): string { List([KindName(t.kind), t.value]) }

  type Parsed<T> = Result<(T, seq<Token>)>

  /** The further literals of an IN list, up to its closing parenthesis. */
  function ParseLiterals(ts: seq<Token>, values: seq<string>): (r: Parsed<seq<string>>)
    ensures r.Ok? ==> |r.value.1| < |ts|
    decreases |ts|
  {
    if Next(ts, Symbol, ",") then
      if |ts| < 2 || !IsLiteral(ts[1]) then Thrown else ParseLiterals(ts[2..], values + [LiteralText(ts[1])])
    else if Next(ts, Symbol, ")") then Ok((values, ts[1..]))
    else Thrown
  }

  function ParsePrimary(ts: seq<Token>): (r: Parsed<Predicate>)
    ensures r.Ok? ==> |r.value.1| < |ts|
    decreases |ts|, 0
  {
    if Next(ts, Symbol, "(") then
      var inner := ParseOr(ts[1..]);
      if inner.Thrown? || !Next(inner.value.1, Symbol, ")") then Thrown else Ok((inner.value.0, inner.value.1[1..]))
    else if ts == [] || !IsColumn(ts[0]) then Thrown
    else ParseComparison(ts[0].value, ts[1..])
  }

  function ParseComparison(column: string, ts: seq<Token>): (r: Parsed<Predicate>)
    ensures r.Ok? ==> |r.value.1| < |ts|
  {
    if Next(ts, Symbol, "=") then
      if |ts| < 2 || !IsLiteral(ts[1]) then Thrown else Ok((Leaf(false, column, [LiteralText(ts[1])]), ts[2..]))
    else if |ts| < 3 || !Next(ts, Word, "in") || !Next(ts[1..], Symbol, "(") || !IsLiteral(ts[2]) then Thrown
    else
      var values := ParseLiterals(ts[3..], [LiteralText(ts[2])]);
      if values.Thrown? then Thrown else Ok((Leaf(true, column, Sort(values.value.0)), values.value.1))
  }

  function Wrap(isAnd: bool, terms: seq<Predicate>): Predicate
    requires terms != []
  {
    if |terms| == 1 then terms[0] else Group(isAnd, terms)
  }

  function ParseAnd(ts: seq<Token>): (r: Parsed<Predicate>)
    ensures r.Ok? ==> |r.value.1| < |ts|
    decreases |ts|, 1
  {
    var first := ParsePrimary(ts);
    if first.Thrown? then Thrown else AndRest(first.value.1, [first.value.0])
  }

  function AndRest(ts: seq<Token>, terms: seq<Predicate>): (r: Parsed<Predicate>)
    requires terms != []
    ensures r.Ok? ==> |r.value.1| <= |ts|
    decreases |ts|, 1
  {
    if !Next(ts, Word, "and") then Ok((Wrap(true, terms), ts))
    else
      var next := ParsePrimary(ts[1..]);
      if next.Thrown? then Thrown else AndRest(next.value.1, terms + [next.value.0])
  }

  function ParseOr(ts: seq<Token>): (r: Parsed<Predicate>)
    ensures r.Ok? ==> |r.value.1| < |ts|
    decreases |ts|, 2
  {
    var first := ParseAnd(ts);
    if first.Thrown? then Thrown else OrRest(first.value.1, [first.value.0])
  }

  function OrRest(ts: seq<Token>, terms: seq<Predicate>): (r: Parsed<Predicate>)
    requires terms != []
    ensures r.Ok? ==> |r.value.1| <= |ts|
    decreases |ts|, 2
  {
    if !Next(ts, Word, "or") then Ok((Wrap(false, terms), ts))
    else
      var next := ParseAnd(ts[1..]);
      if next.Thrown? then Thrown else OrRest(next.value.1, terms + [next.value.0])
  }

  /** The whole predicate, with at most one terminator after it. */
  function Parse(ts: seq<Token>): Result<Predicate> {
    var p := ParseOr(ts);
    if p.Thrown? then Thrown
    else
      var rest := if Next(p.value.1, Symbol, ";") then p.value.1[1..] else p.value.1;
      if rest != [] then Thrown else Ok(p.value.0)
  }

  /** normalizeOpenIndexPredicate. */
  function NormalForm(ts: seq<Token>): Result<string> {
    var p := Parse(ts);
    if p.Thrown? then Thrown else Ok(Normalize(p.value))
  }

  // ---- The parser object -------------------------------------------------------------------

  class OpenIndexParser {
    const tokens: seq<Token>
    var offset: nat

    constructor (tokens: seq<Token>)
      ensures this.tokens == tokens && offset == 0
    {
      this.tokens := tokens;
      offset := 0;
    }

    /** What is left to read; a failed parse may have stepped past the end. */
    function Rest(): seq<Token>
      reads this
    {
      if offset <= |tokens| then tokens[offset..] else []
    }

    method Take(kind: Kind, value: string) returns (taken: bool)
      requires offset <= |tokens|
      modifies this
      ensures offset <= |tokens| && taken == Next(old(Rest()), kind, value)
      ensures Rest() == if taken then old(Rest())[1..] else old(Rest())
    {
      if offset >= |tokens| || tokens[offset] != Token(kind, value) {
        return false;
      }
      offset := offset + 1;
      return true;
    }

    method Literal() returns (r: Result<string>)
      requires offset <= |tokens|
      modifies this
      ensures r.Ok? == (old(Rest()) != [] && IsLiteral(old(Rest())[0]))
      ensures r.Ok? ==> old(Rest()) != [] && offset <= |tokens| && r.value == LiteralText(old(Rest())[0]) && Rest() == old(Rest())[1..]
    {
      offset := offset + 1;
      if offset > |tokens| || (tokens[offset - 1].kind != Text && tokens[offset - 1].kind != Integer) {
        return Thrown;
      }
      return Ok(LiteralText(tokens[offset - 1]));
    }

    method Literals(first: string) returns (r: Result<seq<string>>)
      requires offset <= |tokens|
      modifies this
      ensures r.Ok? ==> offset <= |tokens| && ParseLiterals(old(Rest()), [first]) == Ok((r.value, Rest()))
      ensures r.Thrown? ==> ParseLiterals(old(Rest()), [first]).Thrown?
    {
      var values := [first];
      var comma := Take(Symbol, ",");
      ghost var rest := old(Rest());
      while comma
        invariant comma == Next(rest, Symbol, ",")
        invariant offset <= |tokens| && Rest() == if comma then rest[1..] else rest
        invariant ParseLiterals(old(Rest()), [first]) == ParseLiterals(rest, values)
        decreases |rest|
      {
        var value := Literal();
        if value.Thrown? {
          return Thrown;
        }
        assert rest[1..][1..] == rest[2..];
        values := values + [value.value];
        rest := rest[2..];
        comma := Take(Symbol, ",");
      }
      var closed := Take(Symbol, ")");
      return if closed then Ok(values) else Thrown;
    }

    method Comparison(column: string) returns (r: Result<Predicate>)
      requires offset <= |tokens|
      modifies this
      ensures r.Ok? ==> offset <= |tokens| && ParseComparison(column, old(Rest())) == Ok((r.value, Rest()))
      ensures r.Thrown? ==> ParseComparison(column, old(Rest())).Thrown?
    {
      ghost var ts := Rest();
      var equals := Take(Symbol, "=");
      if equals {
        var value := Literal();
        assert |ts| >= 2 ==> ts[1..][0] == ts[1] && ts[1..][1..] == ts[2..];
        return if value.Thrown? then Thrown else Ok(Leaf(false, column, [value.value]));
      }
      var isIn := Take(Word, "in");
      if !isIn {
        return Thrown;
      }
      var entered := Take(Symbol, "(");
      if !entered {
        return Thrown;
      }
      assert ts[1..][1..] == ts[2..];
      var first := Literal();
      if first.Thrown? {
        return Thrown;
      }
      assert ts[2..][0] == ts[2] && ts[2..][1..] == ts[3..];
      var values := Literals(first.value);
      return if values.Thrown? then Thrown else Ok(Leaf(true, column, Sort(values.value)));
    }

    method Primary() returns (r: Result<Predicate>)
      requires offset <= |tokens|
      modifies this
      ensures r.Ok? ==> offset <= |tokens| && ParsePrimary(old(Rest())) == Ok((r.value, Rest()))
      ensures r.Thrown? ==> ParsePrimary(old(Rest())).Thrown?
      decreases |Rest()|, 0
    {
      var entered := Take(Symbol, "(");
      if entered {
        var expression := OrTerms();
        if expression.Thrown? {
          return Thrown;
        }
        var closed := Take(Symbol, ")");
        return if closed then expression else Thrown;
      }
      offset := offset + 1;
      if offset > |tokens| || (tokens[offset - 1].kind != Word && tokens[offset - 1].kind != Identifier) {
        return Thrown;
      }
      r := Comparison(tokens[offset - 1].value);
    }

    method AndTerms() returns (r: Result<Predicate>)
      requires offset <= |tokens|
      modifies this
      ensures r.Ok? ==> offset <= |tokens| && ParseAnd(old(Rest())) == Ok((r.value, Rest()))
      ensures r.Thrown? ==> ParseAnd(old(Rest())).Thrown?
      decreases |Rest()|, 1
    {
      var first := Primary();
      if first.Thrown? {
        return Thrown;
      }
      var terms := [first.value];
      ghost var rest := Rest();
      var more := Take(Word, "and");
      while more
        invariant offset <= |tokens| && terms != [] && |rest| < |old(Rest())|
        invariant more == Next(rest, Word, "and") && Rest() == if more then rest[1..] else rest
        invariant ParseAnd(old(Rest())) == AndRest(rest, terms)
        decreases |rest|
      {
        var next := Primary();
        if next.Thrown? {
          return Thrown;
        }
        terms := terms + [next.value];
        rest := Rest();
        more := Take(Word, "and");
      }
      return Ok(if |terms| == 1 then terms[0] else Group(true, terms));
    }

    method OrTerms() returns (r: Result<Predicate>)
      requires offset <= |tokens|
      modifies this
      ensures r.Ok? ==> offset <= |tokens| && ParseOr(old(Rest())) == Ok((r.value, Rest()))
      ensures r.Thrown? ==> ParseOr(old(Rest())).Thrown?
      decreases |Rest()|, 2
    {
      var first := AndTerms();
      if first.Thrown? {
        return Thrown;
      }
      var terms := [first.value];
      ghost var rest := Rest();
      var more := Take(Word, "or");
      while more
        invariant offset <= |tokens| && terms != [] && |rest| < |old(Rest())|
        invariant more == Next(rest, Word, "or") && Rest() == if more then rest[1..] else rest
        invariant ParseOr(old(Rest())) == OrRest(rest, terms)
        decreases |rest|
      {
        var next := AndTerms();
        if next.Thrown? {
          return Thrown;
        }
        terms := terms + [next.value];
        rest := Rest();
        more := Take(Word, "or");
      }
      return Ok(if |terms| == 1 then terms[0] else Group(false, terms));
    }

    method NormalizeAll() returns (r: Result<string>)
      requires offset == 0
      modifies this
      ensures r == NormalForm(tokens)
    {
      assert Rest() == tokens;
      var p := OrTerms();
      if p.Thrown? {
        return Thrown;
      }
      var terminated := Take(Symbol, ";");
      if offset != |tokens| {
        return Thrown;
      }
      return Ok(Normalize(p.value));
    }
  }
}

/**
 JSON.stringify on strings and on arrays of strings, and why its output can be read back in only one
 way. Strings are sequences of code points; lone surrogates are not part of this model.
 */
module JsonText {

  function HexDigit(n: nat): char
    requires n < 16
  {
    "0123456789abcdef"[n]
  }

  /** The escape of one character inside a JSON string. */
  function Escape(c: char): string {
    if c == '\"' then "\\\""
    else if c == '\\' then "\\\\"
    else if c == '\U{8}' then "\\b"
    else if c == '\U{C}' then "\\f"
    else if c == '\n' then "\\n"
    else if c == '\r' then "\\r"
    else if c == '\t' then "\\t"
    else if c < ' ' then "\\u00" + [HexDigit(c as int / 16), HexDigit(c as int % 16)]
    else [c]
  }

  function EscapeAll(s: string): string {
    if s == "" then "" else Escape(s[0]) + EscapeAll(s[1..])
  }

  function Quote(s: string): string {
    "\"" + EscapeAll(s) + "\""
  }

  function Join(items: seq<string>): string {
    if items == [] then ""
    else if |items| == 1 then Quote(items[0])
    else Quote(items[0]) + "," + Join(items[1..])
  }

  /** JSON.stringify of an array of strings. */
  function List(items: seq<string>): string {
    "[" + Join(items) + "]"
  }

  // ---- Unique reading ----------------------------------------------------------------------

  lemma Regroup(q: string, c: string, j: string, r: string)
    ensures (q + c + j) + r == q + (c + (j + r))
  {
  }

  lemma SameHead(c: char, u: string, v: string)
    requires [c] + u == [c] + v
    ensures u == v
  {
    assert ([c] + u)[1..] == u && ([c] + v)[1..] == v;
  }

  lemma HexInjective(a: nat, b: nat)
    requires a < 16 && b < 16 && HexDigit(a) == HexDigit(b)
    ensures a == b
  {
  }

  lemma EscapeShape(c: char)
    ensures |Escape(c)| >= 1 && Escape(c)[0] != '\"'
    ensures Escape(c)[0] != '\\' ==> Escape(c) == [c]
    ensures Escape(c)[0] == '\\' ==> |Escape(c)| >= 2 && (Escape(c)[1] == 'u' <==> |Escape(c)| == 6) && (Escape(c)[1] != 'u' ==> |Escape(c)| == 2)
  {
  }

  lemma ControlEscape(a: char, b: char)
    requires a < ' ' && b < ' ' && Escape(a) == Escape(b)
    requires |Escape(a)| == 6
    ensures a == b
  {
    assert Escape(a)[4] == HexDigit(a as int / 16) && Escape(a)[5] == HexDigit(a as int % 16);
    assert Escape(b)[4] == HexDigit(b as int / 16) && Escape(b)[5] == HexDigit(b as int % 16);
    HexInjective(a as int / 16, b as int / 16);
    HexInjective(a as int % 16, b as int % 16);
  }

  lemma EscapeInjective(a: char, b: char)
    requires Escape(a) == Escape(b)
    ensures a == b
  {
    if |Escape(a)| == 6 {
      ControlEscape(a, b);
    }
  }

  /** Escapes are prefix-free: what follows cannot change how the first one is read. */
  lemma EscapePrefix(a: char, b: char, x: string, y: string)
    requires Escape(a) + x == Escape(b) + y
    ensures a == b && x == y
  {
    EscapeShape(a);
    EscapeShape(b);
    var s := Escape(a) + x;
    assert s[0] == Escape(a)[0] == Escape(b)[0];
    if s[0] == '\\' { assert s[1] == Escape(a)[1] == Escape(b)[1]; }
    assert |Escape(a)| == |Escape(b)|;
    assert Escape(a) == s[..|Escape(a)|] == Escape(b);
    assert x == s[|Escape(a)|..] == y;
    EscapeInjective(a, b);
  }

  lemma ClosingQuoteFirst(s: string, x: string)
    ensures |EscapeAll(s) + ("\"" + x)| > 0
    ensures (EscapeAll(s) + ("\"" + x))[0] == '\"' <==> s == ""
  {
    if s != "" { EscapeShape(s[0]); }
  }

  lemma {:induction false} QuotedPrefix(s: string, t: string, x: string, y: string)
    requires EscapeAll(s) + ("\"" + x) == EscapeAll(t) + ("\"" + y)
    ensures s == t && x == y
    decreases |s| + |t|
  {
    hide Escape;
    var all := EscapeAll(s) + ("\"" + x);
    ClosingQuoteFirst(s, x);
    ClosingQuoteFirst(t, y);
    if s == "" {
      assert x == all[1..] == y;
    } else {
      assert all == Escape(s[0]) + (EscapeAll(s[1..]) + ("\"" + x));
      assert all == Escape(t[0]) + (EscapeAll(t[1..]) + ("\"" + y));
      EscapePrefix(s[0], t[0], EscapeAll(s[1..]) + ("\"" + x), EscapeAll(t[1..]) + ("\"" + y));
      QuotedPrefix(s[1..], t[1..], x, y);
      assert s == [s[0]] + s[1..] && t == [t[0]] + t[1..];
    }
  }

  lemma QuotePrefix(s: string, t: string, x: string, y: string)
    requires Quote(s) + x == Quote(t) + y
    ensures s == t && x == y
  {
    hide EscapeAll;
    Regroup("\"", EscapeAll(s), "\"", x);
    Regroup("\"", EscapeAll(t), "\"", y);
    SameHead('\"', EscapeAll(s) + ("\"" + x), EscapeAll(t) + ("\"" + y));
    QuotedPrefix(s, t, x, y);
  }

  /** What follows the first item up to and after the closing bracket. */
  function AfterFirst(items: seq<string>, x: string): string
    requires items != []
  {
    if |items| == 1 then "]" + x else "," + (Join(items[1..]) + ("]" + x))
  }

  lemma JoinStart(items: seq<string>, x: string)
    requires items != []
    ensures Join(items) + ("]" + x) == Quote(items[0]) + AfterFirst(items, x)
    ensures AfterFirst(items, x) != "" && (AfterFirst(items, x)[0] == ']' <==> |items| == 1)
    ensures AfterFirst(items, x)[1..] == if |items| == 1 then x else Join(items[1..]) + ("]" + x)
  {
    hide Quote;
    if |items| > 1 { Regroup(Quote(items[0]), ",", Join(items[1..]), "]" + x); }
  }

  lemma ClosingBracketFirst(items: seq<string>, x: string)
    ensures |Join(items) + ("]" + x)| > 0
    ensures (Join(items) + ("]" + x))[0] == ']' <==> items == []
  {
    if items != [] {
      JoinStart(items, x);
      assert Quote(items[0])[0] == '\"';
    }
  }

  lemma {:induction false} JoinPrefix(a: seq<string>, b: seq<string>, x: string, y: string)
    requires Join(a) + ("]" + x) == Join(b) + ("]" + y)
    ensures a == b && x == y
    decreases |a| + |b|
  {
    ClosingBracketFirst(a, x);
    ClosingBracketFirst(b, y);
    if a == [] {
      assert (Join(a) + ("]" + x))[1..] == x && (Join(b) + ("]" + y))[1..] == y;
    } else {
      JoinStart(a, x);
      JoinStart(b, y);
      hide Quote, Join, AfterFirst;
      QuotePrefix(a[0], b[0], AfterFirst(a, x), AfterFirst(b, y));
      assert a == [a[0]] + a[1..] && b == [b[0]] + b[1..];
      if |a| > 1 { JoinPrefix(a[1..], b[1..], x, y); }
    }
  }

  /** An array of strings is printed in exactly one way, whatever follows it. */
  lemma ListPrefix(a: seq<string>, b: seq<string>, x: string, y: string)
    requires List(a) + x == List(b) + y
    ensures a == b && x == y
  {
    hide Join;
    Regroup("[", Join(a), "]", x);
    Regroup("[", Join(b), "]", y);
    SameHead('[', Join(a) + ("]" + x), Join(b) + ("]" + y));
    JoinPrefix(a, b, x, y);
  }

  lemma ListInjective(a: seq<string>, b: seq<string>)
    requires List(a) == List(b)
    ensures a == b
  {
    assert List(a) + "" == List(b) + "";
    ListPrefix(a, b, "", "");
  }
}

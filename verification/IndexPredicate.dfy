/**
 The predicate of a partial index: its meaning in three-valued logic, its normal form, and why two
 predicates have the same normal form exactly when one is a rearrangement of the other.
 */
module IndexPredicate {
  import opened JsonText
  import opened Multisets
  import opened StringOrder

  /** A literal is kept as its encoded text, which names its kind and its value. */
  datatype Predicate =
    | Leaf(isIn: bool, column: string, values: seq<string>)
    | Group(isAnd: bool, terms: seq<Predicate>)

  // ---- Three-valued meaning ----------------------------------------------------------------

  datatype Truth = True | Unknown | False

  function Not(a: Truth): Truth { match a case True => False case Unknown => Unknown case False => True }

  function And(a: Truth, b: Truth): Truth {
    if a == False || b == False then False else if a == Unknown || b == Unknown then Unknown else True
  }

  function Or(a: Truth, b: Truth): Truth { Not(And(Not(a), Not(b))) }

  function Combine(isAnd: bool, a: Truth, b: Truth): Truth { if isAnd then And(a, b) else Or(a, b) }

  function Unit(isAnd: bool): Truth { if isAnd then True else False }

  /** What a row says about `column = literal`, for every column and literal; Unknown when the column is null. */
  type RowReading = (string, string) -> Truth

  function EvalValues(row: RowReading, column: string, values: seq<string>): Truth {
    if values == [] then False else Or(row(column, values[0]), EvalValues(row, column, values[1..]))
  }

  function Eval(row: RowReading, p: Predicate): Truth
    decreases p, 0
  {
    match p
    case Leaf(_, column, values) => EvalValues(row, column, values)
    case Group(isAnd, terms) => EvalAll(row, isAnd, terms)
  }

  function EvalAll(row: RowReading, isAnd: bool, terms: seq<Predicate>): Truth
    decreases terms, |terms|
  {
    if terms == [] then Unit(isAnd) else Combine(isAnd, Eval(row, terms[0]), EvalAll(row, isAnd, terms[1..]))
  }

  // ---- Normal form -------------------------------------------------------------------------

  function LeafText(isIn: bool, column: string, values: seq<string>): string {
    "[" + (Quote(if isIn then "in" else "=") + ("," + (Quote(column) + ("," + (List(values) + "]")))))
  }

  function GroupText(isAnd: bool, texts: seq<string>): string {
    "[" + (Quote(if isAnd then "and" else "or") + ("," + (List(texts) + "]")))
  }

  function Size(p: Predicate): nat
    decreases p, 0
  {
    match p
    case Leaf(_, _, _) => 1
    case Group(_, terms) => 1 + SizeAll(terms)
  }

  function SizeAll(terms: seq<Predicate>): nat
    decreases terms, |terms|
  {
    if terms == [] then 0 else Size(terms[0]) + SizeAll(terms[1..])
  }

  /** The terms of a group with nested groups of the same operator opened up. */
  function Flat(isAnd: bool, terms: seq<Predicate>): (flat: seq<Predicate>)
    ensures SizeAll(flat) <= SizeAll(terms)
    decreases terms, |terms|
  {
    if terms == [] then []
    else
      var rest := Flat(isAnd, terms[1..]);
      if terms[0].Group? && terms[0].isAnd == isAnd then
        SizeAppend(Flat(isAnd, terms[0].terms), rest);
        Flat(isAnd, terms[0].terms) + rest
      else
        SizeAppend([terms[0]], rest);
        assert SizeAll([terms[0]]) == Size(terms[0]) by { assert [terms[0]][1..] == []; }
        [terms[0]] + rest
  }

  lemma {:induction false} SizeAppend(a: seq<Predicate>, b: seq<Predicate>)
    ensures SizeAll(a + b) == SizeAll(a) + SizeAll(b)
  {
    if a == [] {
      assert a + b == b;
    } else {
      assert (a + b)[1..] == a[1..] + b;
      SizeAppend(a[1..], b);
    }
  }

  function Normalize(p: Predicate): string
    decreases Size(p), 0
  {
    match p
    case Leaf(isIn, column, values) => LeafText(isIn, column, values)
    case Group(isAnd, terms) => GroupText(isAnd, Sort(NormalizeEach(Flat(isAnd, terms))))
  }

  function NormalizeEach(terms: seq<Predicate>): (texts: seq<string>)
    ensures |texts| == |terms|
    decreases SizeAll(terms), 1 + |terms|
  {
    if terms == [] then [] else [Normalize(terms[0])] + NormalizeEach(terms[1..])
  }

  lemma {:induction false} NormalizeEachAt(terms: seq<Predicate>, i: nat)
    requires i < |terms|
    ensures NormalizeEach(terms)[i] == Normalize(terms[i])
    decreases |terms|
  {
    if i > 0 { NormalizeEachAt(terms[1..], i - 1); }
  }

  // ---- Rearrangement, without any text -----------------------------------------------------

  /**
   Equal up to the order of IN values, the order of terms, and the grouping of terms under one operator.
   */
  ghost predicate Rearranged(p: Predicate, q: Predicate)
    decreases Size(p), 0
  {
    match (p, q)
    case (Leaf(isIn, column, values), Leaf(isIn2, column2, values2)) =>
      isIn == isIn2 && column == column2 && multiset(values) == multiset(values2)
    case (Group(isAnd, terms), Group(isAnd2, terms2)) =>
      isAnd == isAnd2 && Matched(Flat(isAnd, terms), Flat(isAnd, terms2))
    case _ => false
  }

  /** The two lists of terms pair off completely. */
  ghost predicate Matched(a: seq<Predicate>, b: seq<Predicate>)
    decreases SizeAll(a), 1 + |a|
  {
    if a == [] then b == []
    else exists j :: 0 <= j < |b| && Rearranged(a[0], b[j]) && Matched(a[1..], Drop(b, j))
  }

  // ---- Rearrangement preserves meaning -----------------------------------------------------

  lemma CombineLaws(isAnd: bool, a: Truth, b: Truth, c: Truth)
    ensures Combine(isAnd, a, Combine(isAnd, b, c)) == Combine(isAnd, b, Combine(isAnd, a, c))
    ensures Combine(isAnd, a, Combine(isAnd, b, c)) == Combine(isAnd, Combine(isAnd, a, b), c)
    ensures Combine(isAnd, Unit(isAnd), a) == a
  {
  }

  lemma OrLaws(a: Truth, b: Truth, c: Truth)
    ensures Or(a, Or(b, c)) == Or(b, Or(a, c)) && Or(a, Or(b, c)) == Or(Or(a, b), c) && Or(False, a) == a
  {
  }

  lemma {:induction false} EvalAppend(row: RowReading, isAnd: bool, a: seq<Predicate>, b: seq<Predicate>)
    ensures EvalAll(row, isAnd, a + b) == Combine(isAnd, EvalAll(row, isAnd, a), EvalAll(row, isAnd, b))
    decreases |a|
  {
    hide Eval, Combine, Unit;
    if a == [] {
      assert a + b == b;
      CombineLaws(isAnd, EvalAll(row, isAnd, b), True, True);
    } else {
      assert (a + b)[0] == a[0] && (a + b)[1..] == a[1..] + b;
      EvalAppend(row, isAnd, a[1..], b);
      CombineLaws(isAnd, Eval(row, a[0]), EvalAll(row, isAnd, a[1..]), EvalAll(row, isAnd, b));
    }
  }

  /** Opening up nested groups of the same operator changes nothing. */
  lemma {:induction false} FlatMeansTheSame(row: RowReading, isAnd: bool, terms: seq<Predicate>)
    ensures EvalAll(row, isAnd, Flat(isAnd, terms)) == EvalAll(row, isAnd, terms)
    decreases terms, |terms|
  {
    if terms != [] {
      FlatMeansTheSame(row, isAnd, terms[1..]);
      if terms[0].Group? && terms[0].isAnd == isAnd {
        FlatMeansTheSame(row, isAnd, terms[0].terms);
        EvalAppend(row, isAnd, Flat(isAnd, terms[0].terms), Flat(isAnd, terms[1..]));
      } else {
        assert ([terms[0]] + Flat(isAnd, terms[1..]))[1..] == Flat(isAnd, terms[1..]);
      }
    }
  }

  lemma EvalDrop(row: RowReading, isAnd: bool, b: seq<Predicate>, j: nat)
    requires j < |b|
    ensures EvalAll(row, isAnd, b) == Combine(isAnd, Eval(row, b[j]), EvalAll(row, isAnd, Drop(b, j)))
  {
    hide Eval, Combine;
    assert b == b[..j] + b[j..];
    assert b[j..][0] == b[j] && b[j..][1..] == b[j + 1..];
    EvalAppend(row, isAnd, b[..j], b[j..]);
    EvalAppend(row, isAnd, b[..j], b[j + 1..]);
    CombineLaws(isAnd, EvalAll(row, isAnd, b[..j]), Eval(row, b[j]), EvalAll(row, isAnd, b[j + 1..]));
  }

  lemma {:induction false} ValuesAppend(row: RowReading, column: string, a: seq<string>, b: seq<string>)
    ensures EvalValues(row, column, a + b) == Or(EvalValues(row, column, a), EvalValues(row, column, b))
    decreases |a|
  {
    hide Or;
    if a == [] {
      assert a + b == b;
      OrLaws(EvalValues(row, column, b), True, True);
    } else {
      assert (a + b)[0] == a[0] && (a + b)[1..] == a[1..] + b;
      ValuesAppend(row, column, a[1..], b);
      OrLaws(row(column, a[0]), EvalValues(row, column, a[1..]), EvalValues(row, column, b));
    }
  }

  lemma {:induction false} ValuesUnordered(row: RowReading, column: string, a: seq<string>, b: seq<string>)
    requires multiset(a) == multiset(b)
    ensures EvalValues(row, column, a) == EvalValues(row, column, b)
    decreases |a|
  {
    hide Or;
    if a == [] {
      EmptyOnly(b);
    } else {
      var j := Extract(a, b);
      ValuesUnordered(row, column, a[1..], Drop(b, j));
      ValueDrop(row, column, b, j);
    }
  }

  lemma ValueDrop(row: RowReading, column: string, b: seq<string>, j: nat)
    requires j < |b|
    ensures EvalValues(row, column, b) == Or(row(column, b[j]), EvalValues(row, column, Drop(b, j)))
  {
    hide Or;
    assert b == b[..j] + b[j..] && b[j..][0] == b[j] && b[j..][1..] == b[j + 1..];
    ValuesAppend(row, column, b[..j], b[j..]);
    ValuesAppend(row, column, b[..j], b[j + 1..]);
    OrLaws(EvalValues(row, column, b[..j]), row(column, b[j]), EvalValues(row, column, b[j + 1..]));
  }

  /** Rearranged predicates have the same three-valued meaning on every row. */
  lemma {:induction false} RearrangedMeansTheSame(row: RowReading, p: Predicate, q: Predicate)
    requires Rearranged(p, q)
    ensures Eval(row, p) == Eval(row, q)
    decreases Size(p), 0
  {
    match p {
      case Leaf(_, column, values) => ValuesUnordered(row, column, values, q.values);
      case Group(isAnd, terms) =>
        FlatMeansTheSame(row, isAnd, terms);
        FlatMeansTheSame(row, isAnd, q.terms);
        MatchedMeansTheSame(row, isAnd, Flat(isAnd, terms), Flat(isAnd, q.terms));
    }
  }

  lemma {:induction false} MatchedMeansTheSame(row: RowReading, isAnd: bool, a: seq<Predicate>, b: seq<Predicate>)
    requires Matched(a, b)
    ensures EvalAll(row, isAnd, a) == EvalAll(row, isAnd, b)
    decreases SizeAll(a), 1 + |a|
  {
    hide Combine;
    if a != [] {
      var j :| 0 <= j < |b| && Rearranged(a[0], b[j]) && Matched(a[1..], Drop(b, j));
      RearrangedMeansTheSame(row, a[0], b[j]);
      MatchedMeansTheSame(row, isAnd, a[1..], Drop(b, j));
      EvalDrop(row, isAnd, b, j);
    }
  }

  // ---- Equal normal forms are exactly rearrangements ---------------------------------------

  /** IN lists as the parser leaves them: sorted. */
  predicate SortedValues(p: Predicate)
    decreases p, 0
  {
    match p
    case Leaf(_, _, values) => Ordered(values)
    case Group(_, terms) => SortedAll(terms)
  }

  predicate SortedAll(terms: seq<Predicate>)
    decreases terms, |terms|
  {
    terms == [] || (SortedValues(terms[0]) && SortedAll(terms[1..]))
  }

  lemma {:induction false} SortedAppend(a: seq<Predicate>, b: seq<Predicate>)
    ensures SortedAll(a + b) <==> SortedAll(a) && SortedAll(b)
    decreases |a|
  {
    if a == [] {
      assert a + b == b;
    } else {
      assert (a + b)[0] == a[0] && (a + b)[1..] == a[1..] + b;
      SortedAppend(a[1..], b);
    }
  }

  lemma {:induction false} FlatSorted(isAnd: bool, terms: seq<Predicate>)
    requires SortedAll(terms)
    ensures SortedAll(Flat(isAnd, terms))
    decreases terms, |terms|
  {
    if terms != [] {
      FlatSorted(isAnd, terms[1..]);
      if terms[0].Group? && terms[0].isAnd == isAnd {
        FlatSorted(isAnd, terms[0].terms);
        SortedAppend(Flat(isAnd, terms[0].terms), Flat(isAnd, terms[1..]));
      } else {
        assert [terms[0]][1..] == [];
        SortedAppend([terms[0]], Flat(isAnd, terms[1..]));
      }
    }
  }

  lemma SortedDrop(b: seq<Predicate>, j: nat)
    requires j < |b| && SortedAll(b)
    ensures SortedAll(Drop(b, j)) && SortedValues(b[j])
  {
    assert b == b[..j] + b[j..] && b[j..][1..] == b[j + 1..];
    SortedAppend(b[..j], b[j..]);
    SortedAppend(b[..j], b[j + 1..]);
  }

  lemma KindText(isIn: bool, isIn2: bool, isAnd: bool, isAnd2: bool)
    ensures (if isIn then "in" else "=") == (if isIn2 then "in" else "=") ==> isIn == isIn2
    ensures (if isAnd then "and" else "or") == (if isAnd2 then "and" else "or") ==> isAnd == isAnd2
    ensures (if isIn then "in" else "=") != (if isAnd then "and" else "or")
  {
    assert (if isIn then "in" else "=")[0] != (if isAnd then "and" else "or")[0];
    assert |"in"| != |"="| && |"and"| != |"or"|;
  }

  lemma SameLeafText(isIn: bool, column: string, values: seq<string>, isIn2: bool, column2: string, values2: seq<string>)
    requires LeafText(isIn, column, values) == LeafText(isIn2, column2, values2)
    ensures isIn == isIn2 && column == column2 && values == values2
  {
    hide Quote, List;
    var after := "," + (List(values) + "]");
    var after2 := "," + (List(values2) + "]");
    SameHead('[', Quote(if isIn then "in" else "=") + ("," + (Quote(column) + after)),
             Quote(if isIn2 then "in" else "=") + ("," + (Quote(column2) + after2)));
    QuotePrefix(if isIn then "in" else "=", if isIn2 then "in" else "=", "," + (Quote(column) + after), "," + (Quote(column2) + after2));
    SameHead(',', Quote(column) + after, Quote(column2) + after2);
    QuotePrefix(column, column2, after, after2);
    SameHead(',', List(values) + "]", List(values2) + "]");
    ListPrefix(values, values2, "]", "]");
    KindText(isIn, isIn2, true, true);
  }

  lemma SameGroupText(isAnd: bool, texts: seq<string>, isAnd2: bool, texts2: seq<string>)
    requires GroupText(isAnd, texts) == GroupText(isAnd2, texts2)
    ensures isAnd == isAnd2 && texts == texts2
  {
    hide Quote, List;
    var after := "," + (List(texts) + "]");
    var after2 := "," + (List(texts2) + "]");
    SameHead('[', Quote(if isAnd then "and" else "or") + after, Quote(if isAnd2 then "and" else "or") + after2);
    QuotePrefix(if isAnd then "and" else "or", if isAnd2 then "and" else "or", after, after2);
    SameHead(',', List(texts) + "]", List(texts2) + "]");
    ListPrefix(texts, texts2, "]", "]");
    KindText(true, true, isAnd, isAnd2);
  }

  lemma LeafIsNoGroup(isIn: bool, column: string, values: seq<string>, isAnd: bool, texts: seq<string>)
    ensures LeafText(isIn, column, values) != GroupText(isAnd, texts)
  {
    hide Quote, List;
    if LeafText(isIn, column, values) == GroupText(isAnd, texts) {
      var after := "," + (Quote(column) + ("," + (List(values) + "]")));
      var after2 := "," + (List(texts) + "]");
      KindText(isIn, isIn, isAnd, isAnd);
      SameHead('[', Quote(if isIn then "in" else "=") + after, Quote(if isAnd then "and" else "or") + after2);
      QuotePrefix(if isIn then "in" else "=", if isAnd then "and" else "or", after, after2);
    }
  }

  lemma NormalizeHead(terms: seq<Predicate>)
    requires terms != []
    ensures NormalizeEach(terms) == [Normalize(terms[0])] + NormalizeEach(terms[1..])
  {
    hide Normalize;
  }

  lemma DropMultiset(terms: seq<Predicate>, j: nat)
    requires j < |terms|
    ensures multiset(NormalizeEach(terms)) == multiset{Normalize(terms[j])} + multiset(NormalizeEach(Drop(terms, j)))
  {
    hide Normalize, NormalizeEach;
    assert terms == terms[..j] + terms[j..] && terms[j..][0] == terms[j] && terms[j..][1..] == terms[j + 1..];
    NormalizeAppend(terms[..j], terms[j..]);
    NormalizeAppend(terms[..j], terms[j + 1..]);
    NormalizeHead(terms[j..]);
    Middle(NormalizeEach(terms[..j]), Normalize(terms[j]), NormalizeEach(terms[j + 1..]));
  }

  lemma {:induction false} NormalizeAppend(a: seq<Predicate>, b: seq<Predicate>)
    ensures NormalizeEach(a + b) == NormalizeEach(a) + NormalizeEach(b)
    decreases |a|
  {
    hide Normalize;
    if a == [] {
      assert a + b == b;
    } else {
      assert (a + b)[0] == a[0] && (a + b)[1..] == a[1..] + b;
      NormalizeAppend(a[1..], b);
    }
  }

  /**
   The normal form is sound and complete: two parsed predicates get the same text exactly when one is
   a rearrangement of the other.
   */
  lemma {:induction false} SameNormalForm(p: Predicate, q: Predicate)
    requires SortedValues(p) && SortedValues(q)
    ensures Normalize(p) == Normalize(q) <==> Rearranged(p, q)
    decreases Size(p), 0
  {
    hide LeafText, GroupText, Sort, Ordered;
    if p.Leaf? && q.Leaf? {
      if Normalize(p) == Normalize(q) { SameLeafText(p.isIn, p.column, p.values, q.isIn, q.column, q.values); }
      if Rearranged(p, q) { OrderedUnique(p.values, q.values); }
    } else if p.Group? && q.Group? {
      if Normalize(p) == Normalize(q) {
        SameGroupText(p.isAnd, Sort(NormalizeEach(Flat(p.isAnd, p.terms))), q.isAnd, Sort(NormalizeEach(Flat(q.isAnd, q.terms))));
      }
      if p.isAnd == q.isAnd {
        var a, b := Flat(p.isAnd, p.terms), Flat(q.isAnd, q.terms);
        FlatSorted(p.isAnd, p.terms);
        FlatSorted(q.isAnd, q.terms);
        SortForgetsOrder(NormalizeEach(a), NormalizeEach(b));
        SameNormalForms(a, b);
      }
    } else if p.Leaf? {
      LeafIsNoGroup(p.isIn, p.column, p.values, q.isAnd, Sort(NormalizeEach(Flat(q.isAnd, q.terms))));
    } else {
      LeafIsNoGroup(q.isIn, q.column, q.values, p.isAnd, Sort(NormalizeEach(Flat(p.isAnd, p.terms))));
    }
  }

  lemma {:induction false} SameNormalForms(a: seq<Predicate>, b: seq<Predicate>)
    requires SortedAll(a) && SortedAll(b)
    ensures multiset(NormalizeEach(a)) == multiset(NormalizeEach(b)) <==> Matched(a, b)
    decreases SizeAll(a), 1 + |a|
  {
    hide Normalize, Rearranged;
    if a == [] {
      if b != [] { assert NormalizeEach(b)[0] in multiset(NormalizeEach(b)); }
    } else {
      if Matched(a, b) {
        var j :| 0 <= j < |b| && Rearranged(a[0], b[j]) && Matched(a[1..], Drop(b, j));
        PairOff(a, b, j);
      }
      if multiset(NormalizeEach(a)) == multiset(NormalizeEach(b)) {
        assert Normalize(a[0]) == NormalizeEach(a)[0];
        assert Normalize(a[0]) in multiset(NormalizeEach(b));
        var j :| 0 <= j < |b| && NormalizeEach(b)[j] == Normalize(a[0]);
        NormalizeEachAt(b, j);
        PairOff(a, b, j);
      }
    }
  }

  /** Pairing the first term with one of equal text, and then the rest. */
  lemma {:induction false} PairOff(a: seq<Predicate>, b: seq<Predicate>, j: nat)
    requires a != [] && j < |b| && SortedAll(a) && SortedAll(b)
    ensures Normalize(a[0]) == Normalize(b[j]) <==> Rearranged(a[0], b[j])
    ensures Normalize(a[0]) == Normalize(b[j]) ==>
              (multiset(NormalizeEach(a)) == multiset(NormalizeEach(b)) <==> Matched(a[1..], Drop(b, j)))
    decreases SizeAll(a), |a|
  {
    hide Normalize, Rearranged, Matched, SortedValues;
    SortedDrop(b, j);
    SameNormalForm(a[0], b[j]);
    SameNormalForms(a[1..], Drop(b, j));
    DropMultiset(b, j);
    HeadSplits(NormalizeEach(a));
    Cancel(Normalize(b[j]), multiset(NormalizeEach(a[1..])), multiset(NormalizeEach(Drop(b, j))));
  }

  /** Predicates with equal normal forms agree, in three-valued logic, on every row. */
  lemma NormalFormKeepsMeaning(row: RowReading, p: Predicate, q: Predicate)
    requires SortedValues(p) && SortedValues(q) && Normalize(p) == Normalize(q)
    ensures Eval(row, p) == Eval(row, q)
  {
    SameNormalForm(p, q);
    RearrangedMeansTheSame(row, p, q);
  }

  /** Dropping redundant parentheses and reordering terms never changes the normal form. */
  lemma RegroupingKeepsNormalForm(isAnd: bool, before: seq<Predicate>, inner: seq<Predicate>, after: seq<Predicate>, terms: seq<Predicate>)
    requires multiset(terms) == multiset(before + inner + after)
    ensures Normalize(Group(isAnd, before + [Group(isAnd, inner)] + after)) == Normalize(Group(isAnd, terms))
  {
    hide Normalize, Sort;
    var nested, plain := before + [Group(isAnd, inner)] + after, before + inner + after;
    FlatNested(isAnd, before, inner, after);
    FlatReordered(isAnd, terms, plain);
    EachReordered(Flat(isAnd, terms), Flat(isAnd, plain));
    SortForgetsOrder(NormalizeEach(Flat(isAnd, terms)), NormalizeEach(Flat(isAnd, nested)));
    GroupNormalForm(isAnd, nested);
    GroupNormalForm(isAnd, terms);
  }

  lemma GroupNormalForm(isAnd: bool, terms: seq<Predicate>)
    ensures Normalize(Group(isAnd, terms)) == GroupText(isAnd, Sort(NormalizeEach(Flat(isAnd, terms))))
  {
  }

  lemma FlatNested(isAnd: bool, before: seq<Predicate>, inner: seq<Predicate>, after: seq<Predicate>)
    ensures Flat(isAnd, before + [Group(isAnd, inner)] + after) == Flat(isAnd, before + inner + after)
  {
    hide Flat;
    FlatAppend(isAnd, before + [Group(isAnd, inner)], after);
    FlatAppend(isAnd, before, [Group(isAnd, inner)]);
    FlatAppend(isAnd, before + inner, after);
    FlatAppend(isAnd, before, inner);
    FlatOne(isAnd, inner);
  }

  lemma FlatOne(isAnd: bool, inner: seq<Predicate>)
    ensures Flat(isAnd, [Group(isAnd, inner)]) == Flat(isAnd, inner)
  {
    assert [Group(isAnd, inner)][1..] == [];
    assert Flat(isAnd, inner) + [] == Flat(isAnd, inner);
  }

  lemma {:induction false} FlatAppend(isAnd: bool, a: seq<Predicate>, b: seq<Predicate>)
    ensures Flat(isAnd, a + b) == Flat(isAnd, a) + Flat(isAnd, b)
    decreases |a|
  {
    if a == [] {
      assert a + b == b;
    } else {
      assert (a + b)[0] == a[0] && (a + b)[1..] == a[1..] + b;
      FlatAppend(isAnd, a[1..], b);
    }
  }

  lemma FlatDrop(isAnd: bool, b: seq<Predicate>, j: nat)
    requires j < |b|
    ensures multiset(Flat(isAnd, b)) == multiset(Flat(isAnd, [b[j]])) + multiset(Flat(isAnd, Drop(b, j)))
  {
    hide Flat;
    assert b == b[..j] + ([b[j]] + b[j + 1..]);
    FlatAppend(isAnd, b[..j], [b[j]] + b[j + 1..]);
    FlatAppend(isAnd, [b[j]], b[j + 1..]);
    FlatAppend(isAnd, b[..j], b[j + 1..]);
  }

  lemma {:induction false} FlatReordered(isAnd: bool, a: seq<Predicate>, b: seq<Predicate>)
    requires multiset(a) == multiset(b)
    ensures multiset(Flat(isAnd, a)) == multiset(Flat(isAnd, b))
    decreases |a|
  {
    hide Flat;
    if a == [] {
      EmptyOnly(b);
    } else {
      var j := Extract(a, b);
      FlatReordered(isAnd, a[1..], Drop(b, j));
      FlatDrop(isAnd, b, j);
      FlatDrop(isAnd, a, 0);
      assert Drop(a, 0) == a[1..];
    }
  }

  lemma {:induction false} EachReordered(a: seq<Predicate>, b: seq<Predicate>)
    requires multiset(a) == multiset(b)
    ensures multiset(NormalizeEach(a)) == multiset(NormalizeEach(b))
    decreases |a|
  {
    hide NormalizeEach, Normalize;
    if a == [] {
      EmptyOnly(b);
    } else {
      var j := Extract(a, b);
      EachReordered(a[1..], Drop(b, j));
      DropMultiset(b, j);
      DropMultiset(a, 0);
      assert Drop(a, 0) == a[1..];
    }
  }
}

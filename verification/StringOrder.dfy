/** Array.prototype.sort on strings: a total order, and a result that depends on the multiset alone. */
module StringOrder {
  import opened Multisets

  predicate AtMost(a: string, b: string) {
    a == "" || (b != "" && (a[0] < b[0] || (a[0] == b[0] && AtMost(a[1..], b[1..]))))
  }

  lemma {:induction false} Total(a: string, b: string)
    ensures AtMost(a, b) || AtMost(b, a)
  {
    if a != "" && b != "" && a[0] == b[0] { Total(a[1..], b[1..]); }
  }

  lemma {:induction false} Antisymmetric(a: string, b: string)
    requires AtMost(a, b) && AtMost(b, a)
    ensures a == b
  {
    if a != "" {
      Antisymmetric(a[1..], b[1..]);
      assert a == [a[0]] + a[1..] && b == [b[0]] + b[1..];
    }
  }

  lemma {:induction false} Transitive(a: string, b: string, c: string)
    requires AtMost(a, b) && AtMost(b, c)
    ensures AtMost(a, c)
  {
    if a != "" && a[0] == b[0] && b[0] == c[0] { Transitive(a[1..], b[1..], c[1..]); }
  }

  function Insert(x: string, sorted: seq<string>): seq<string> {
    if sorted == [] || AtMost(x, sorted[0]) then [x] + sorted else [sorted[0]] + Insert(x, sorted[1..])
  }

  function Sort(items: seq<string>): seq<string> {
    if items == [] then [] else Insert(items[0], Sort(items[1..]))
  }

  predicate Ordered(items: seq<string>) {
    forall i, j | 0 <= i < j < |items| :: AtMost(items[i], items[j])
  }

  lemma {:induction false} InsertKeeps(x: string, sorted: seq<string>)
    requires Ordered(sorted)
    ensures multiset(Insert(x, sorted)) == multiset(sorted) + multiset{x}
    ensures Ordered(Insert(x, sorted))
  {
    if sorted == [] {
    } else if AtMost(x, sorted[0]) {
      forall j | 0 <= j < |sorted| ensures AtMost(x, sorted[j]) {
        if j > 0 { Transitive(x, sorted[0], sorted[j]); }
      }
    } else {
      Total(x, sorted[0]);
      var rest := Insert(x, sorted[1..]);
      assert sorted == [sorted[0]] + sorted[1..];
      InsertKeeps(x, sorted[1..]);
      forall j | 0 <= j < |rest| ensures AtMost(sorted[0], rest[j]) {
        assert rest[j] in multiset(sorted[1..]) + multiset{x};
      }
    }
  }

  lemma {:induction false} SortOrders(items: seq<string>)
    ensures Ordered(Sort(items)) && multiset(Sort(items)) == multiset(items)
  {
    if items != [] {
      SortOrders(items[1..]);
      InsertKeeps(items[0], Sort(items[1..]));
      assert items == [items[0]] + items[1..];
    }
  }

  lemma OrderedTail(a: seq<string>)
    requires Ordered(a) && a != []
    ensures Ordered(a[1..]) && a == [a[0]] + a[1..]
  {
  }

  lemma SmallestFirst(a: seq<string>, x: string)
    requires Ordered(a) && x in a
    ensures AtMost(a[0], x)
  {
    Total(x, x);
  }

  lemma {:induction false} OrderedUnique(a: seq<string>, b: seq<string>)
    requires Ordered(a) && Ordered(b) && multiset(a) == multiset(b)
    ensures a == b
  {
    if a == [] {
      EmptyOnly(b);
    } else {
      var j := Extract(a, b);
      SmallestFirst(b, a[0]);
      HeadSplits(b);
      assert b[0] in multiset(a);
      SmallestFirst(a, b[0]);
      Antisymmetric(a[0], b[0]);
      OrderedTail(a);
      OrderedTail(b);
      HeadSplits(a);
      HeadSplits(b);
      Cancel(a[0], multiset(a[1..]), multiset(b[1..]));
      OrderedUnique(a[1..], b[1..]);
    }
  }

  /** Sorting forgets exactly the order. */
  lemma SortForgetsOrder(a: seq<string>, b: seq<string>)
    ensures Sort(a) == Sort(b) <==> multiset(a) == multiset(b)
  {
    SortOrders(a);
    SortOrders(b);
    if multiset(a) == multiset(b) { OrderedUnique(Sort(a), Sort(b)); }
  }
}

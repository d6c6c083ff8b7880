/** Taking one element out of a sequence, and what that does to its multiset. */
module Multisets {

  function Drop<T>(s: seq<T>, j: nat): seq<T>
    requires j < |s|
  {
    s[..j] + s[j + 1..]
  }

  lemma DropSplits<T>(s: seq<T>, j: nat)
    requires j < |s|
    ensures s == s[..j] + ([s[j]] + s[j + 1..])
    ensures multiset(s) == multiset{s[j]} + multiset(Drop(s, j))
  {
    assert s == s[..j] + ([s[j]] + s[j + 1..]);
  }

  lemma Middle<T>(front: seq<T>, x: T, back: seq<T>)
    ensures multiset(front + ([x] + back)) == multiset{x} + multiset(front + back)
  {
  }

  lemma HeadSplits<T>(s: seq<T>)
    requires s != []
    ensures s == [s[0]] + s[1..] && multiset(s) == multiset{s[0]} + multiset(s[1..])
  {
    assert s == [s[0]] + s[1..];
  }

  lemma Cancel<T>(x: T, m: multiset<T>, n: multiset<T>)
    ensures multiset{x} + m == multiset{x} + n <==> m == n
  {
    if multiset{x} + m == multiset{x} + n {
      assert m == (multiset{x} + m) - multiset{x} && n == (multiset{x} + n) - multiset{x};
    }
  }

  lemma EmptyOnly<T>(s: seq<T>)
    requires multiset(s) == multiset([])
    ensures s == []
  {
    if |s| > 0 { HeadSplits(s); }
  }

  /** Equal multisets: the head of one is somewhere in the other, and the rests are equal again. */
  lemma Extract<T>(a: seq<T>, b: seq<T>) returns (j: nat)
    requires a != [] && multiset(a) == multiset(b)
    ensures j < |b| && b[j] == a[0] && multiset(a[1..]) == multiset(Drop(b, j))
  {
    HeadSplits(a);
    assert a[0] in multiset(b);
    j :| 0 <= j < |b| && b[j] == a[0];
    DropSplits(b, j);
    Cancel(a[0], multiset(a[1..]), multiset(Drop(b, j)));
  }
}

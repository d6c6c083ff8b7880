/**
 The historical page cache: insertion-ordered, re-inserted on use, bounded by entries and by bytes.
 `bytes` is the length of the encoded page; encoding itself is not part of this model.
 */
module PageCache {
  import opened Common
  import opened ScanQueries

  datatype Stored = Stored(page: Page, bytes: nat)

  datatype Limits = Limits(entries: nat, bytes: nat)

  /** Keys from least to most recently used. */
  datatype Cache = Cache(order: seq<Key>, pages: map<Key, Stored>)

  function Remove(order: seq<Key>, k: Key): (rest: seq<Key>)
    ensures k !in order ==> rest == order
    ensures forall x :: x in rest <==> x in order && x != k
    ensures |rest| <= |order|
  {
    if order == [] then []
    else if order[0] == k then Remove(order[1..], k)
    else
      assert order == [order[0]] + order[1..];
      [order[0]] + Remove(order[1..], k)
  }

  predicate NoRepeats(order: seq<Key>) {
    forall i, j | 0 <= i < j < |order| :: order[i] != order[j]
  }

  function Total(order: seq<Key>, pages: map<Key, Stored>): nat
    requires forall k <- order :: k in pages
  {
    if order == [] then 0 else pages[order[0]].bytes + Total(order[1..], pages)
  }

  predicate Consistent(c: Cache) {
    NoRepeats(c.order) && (forall k <- c.order :: k in c.pages) && (forall k <- c.pages :: k in c.order)
  }

  predicate Fits(l: Limits, c: Cache)
    requires Consistent(c)
  {
    |c.order| <= l.entries && Total(c.order, c.pages) <= l.bytes
  }

  // ---- The operations as functions ---------------------------------------------------------

  function Lookup(c: Cache, k: Key): Option<Page> {
    if k in c.pages then Some(c.pages[k].page) else None
  }

  function Touch(c: Cache, k: Key): Cache {
    if k in c.pages then c.(order := Remove(c.order, k) + [k]) else c
  }

  function DropOldest(c: Cache): Cache
    requires c.order != []
  {
    Cache(c.order[1..], c.pages - {c.order[0]})
  }

  /** Evict from the least recently used end until both limits hold. */
  function Trim(l: Limits, c: Cache): (t: Cache)
    requires Consistent(c)
    ensures Consistent(t)
    decreases |c.order|
  {
    if c.order == [] || Fits(l, c) then c
    else
      DropConsistent(c);
      Trim(l, DropOldest(c))
  }

  predicate Accepts(l: Limits, bytes: nat) {
    l.entries != 0 && l.bytes != 0 && bytes <= l.bytes
  }

  function Insert(c: Cache, k: Key, page: Page, bytes: nat): Cache {
    Cache(Remove(c.order, k) + [k], c.pages[k := Stored(page, bytes)])
  }

  function Put(l: Limits, c: Cache, k: Key, page: Page, bytes: nat): Cache
    requires Consistent(c)
  {
    if !Accepts(l, bytes) then c
    else
      InsertConsistent(c, k, page, bytes);
      Trim(l, Insert(c, k, page, bytes))
  }

  // ---- Representation ----------------------------------------------------------------------

  lemma {:induction false} RemoveKeepsOrder(order: seq<Key>, k: Key)
    requires NoRepeats(order)
    ensures NoRepeats(Remove(order, k))
  {
    if order != [] {
      var rest := Remove(order[1..], k);
      forall i, j | 0 <= i < j < |order[1..]| ensures order[1..][i] != order[1..][j] {
        assert order[1..][i] == order[i + 1] && order[1..][j] == order[j + 1];
      }
      RemoveKeepsOrder(order[1..], k);
      if order[0] != k {
        forall i, j | 0 <= i < j < |[order[0]] + rest| ensures ([order[0]] + rest)[i] != ([order[0]] + rest)[j] {
          if i == 0 { assert rest[j - 1] in order[1..]; }
        }
      }
    }
  }

  lemma DropConsistent(c: Cache)
    requires Consistent(c) && c.order != []
    ensures Consistent(DropOldest(c))
  {
    var d := DropOldest(c);
    forall k ensures k in d.order <==> k in d.pages {
      if k in c.order && k != c.order[0] {
        var i :| 0 <= i < |c.order| && c.order[i] == k;
        assert d.order[i - 1] == k;
      }
    }
  }

  lemma InsertConsistent(c: Cache, k: Key, page: Page, bytes: nat)
    requires Consistent(c)
    ensures Consistent(Insert(c, k, page, bytes))
  {
    RemoveKeepsOrder(c.order, k);
  }

  lemma TouchConsistent(c: Cache, k: Key)
    requires Consistent(c)
    ensures Consistent(Touch(c, k))
  {
    if k in c.pages { RemoveKeepsOrder(c.order, k); }
  }

  lemma {:induction false} TotalFrame(order: seq<Key>, pages: map<Key, Stored>, later: map<Key, Stored>)
    requires forall k <- order :: k in pages && k in later && pages[k] == later[k]
    ensures Total(order, pages) == Total(order, later)
  {
    if order != [] { TotalFrame(order[1..], pages, later); }
  }

  lemma {:induction false} TotalAppend(order: seq<Key>, k: Key, pages: map<Key, Stored>)
    requires forall x <- order + [k] :: x in pages
    ensures (forall x <- order :: x in pages) && Total(order + [k], pages) == Total(order, pages) + pages[k].bytes
  {
    forall x <- order ensures x in pages { assert x in order + [k]; }
    if order == [] {
      assert order + [k] == [k] && [k][1..] == [];
    } else {
      assert (order + [k])[1..] == order[1..] + [k];
      TotalAppend(order[1..], k, pages);
    }
  }

  lemma {:induction false} TotalRemove(order: seq<Key>, k: Key, pages: map<Key, Stored>)
    requires NoRepeats(order) && forall x <- order :: x in pages
    ensures Total(Remove(order, k), pages) + (if k in order then pages[k].bytes else 0) == Total(order, pages)
  {
    if order != [] {
      forall i, j | 0 <= i < j < |order[1..]| ensures order[1..][i] != order[1..][j] {
        assert order[1..][i] == order[i + 1] && order[1..][j] == order[j + 1];
      }
      TotalRemove(order[1..], k, pages);
      if order[0] != k {
        var rest := Remove(order[1..], k);
        assert ([order[0]] + rest)[1..] == rest;
      }
    }
  }

  lemma TotalInsert(c: Cache, k: Key, page: Page, bytes: nat)
    requires Consistent(c)
    ensures Consistent(Insert(c, k, page, bytes))
    ensures var i := Insert(c, k, page, bytes);
            Total(i.order, i.pages) == Total(c.order, c.pages) - (if k in c.pages then c.pages[k].bytes else 0) + bytes
  {
    InsertConsistent(c, k, page, bytes);
    var i := Insert(c, k, page, bytes);
    TotalRemove(c.order, k, c.pages);
    TotalAppend(Remove(c.order, k), k, i.pages);
    TotalFrame(Remove(c.order, k), c.pages, i.pages);
  }

  lemma TotalTouch(c: Cache, k: Key)
    requires Consistent(c)
    ensures Consistent(Touch(c, k)) && |Touch(c, k).order| == |c.order|
    ensures Total(Touch(c, k).order, Touch(c, k).pages) == Total(c.order, c.pages)
  {
    TouchConsistent(c, k);
    if k in c.pages {
      TotalRemove(c.order, k, c.pages);
      TotalAppend(Remove(c.order, k), k, c.pages);
      RemoveShortens(c.order, k);
    }
  }

  lemma {:induction false} RemoveShortens(order: seq<Key>, k: Key)
    requires NoRepeats(order)
    ensures |Remove(order, k)| == |order| - (if k in order then 1 else 0)
  {
    if order != [] {
      forall i, j | 0 <= i < j < |order[1..]| ensures order[1..][i] != order[1..][j] {
        assert order[1..][i] == order[i + 1] && order[1..][j] == order[j + 1];
      }
      RemoveShortens(order[1..], k);
      if order[0] == k {
        assert k !in order[1..];
      }
    }
  }

  lemma TotalDrop(c: Cache)
    requires Consistent(c) && c.order != []
    ensures Consistent(DropOldest(c))
    ensures Total(DropOldest(c).order, DropOldest(c).pages) == Total(c.order, c.pages) - c.pages[c.order[0]].bytes
  {
    DropConsistent(c);
    forall k <- c.order[1..] ensures k in c.pages && k != c.order[0] {
      var i :| 0 <= i < |c.order[1..]| && c.order[1..][i] == k;
      assert c.order[i + 1] == k;
    }
    TotalFrame(c.order[1..], c.pages, DropOldest(c).pages);
  }

  // ---- What eviction keeps -----------------------------------------------------------------

  function Tail(order: seq<Key>, n: nat): seq<Key>
    requires n <= |order|
  {
    order[|order| - n..]
  }

  /** The n most recently used entries. */
  function Newest(c: Cache, n: nat): Cache
    requires n <= |c.order|
  {
    Cache(Tail(c.order, n), Restrict(c.pages, Tail(c.order, n)))
  }

  function Restrict(pages: map<Key, Stored>, order: seq<Key>): map<Key, Stored> {
    map k | k in pages && k in order :: pages[k]
  }

  lemma RestrictMinus(pages: map<Key, Stored>, order: seq<Key>, x: Key)
    requires x !in order
    ensures Restrict(pages - {x}, order) == Restrict(pages, order)
  {
  }

  lemma NewestConsistent(c: Cache, n: nat)
    requires Consistent(c) && n <= |c.order|
    ensures Consistent(Newest(c, n))
  {
  }

  lemma FirstIsNotInTail(order: seq<Key>, n: nat)
    requires NoRepeats(order) && order != [] && n < |order|
    ensures order[0] !in Tail(order, n) && Tail(order[1..], n) == Tail(order, n)
  {
  }

  lemma NewestOfDropped(c: Cache, n: nat)
    requires Consistent(c) && c.order != [] && n < |c.order|
    ensures Consistent(DropOldest(c)) && Newest(DropOldest(c), n) == Newest(c, n)
  {
    DropConsistent(c);
    FirstIsNotInTail(c.order, n);
    hide Consistent, Tail, NoRepeats, Restrict;
    RestrictMinus(c.pages, Tail(c.order, n), c.order[0]);
  }

  /**
   Eviction keeps exactly the longest run of most recently used entries that meets both limits:
   whatever is dropped was used longer ago than whatever is kept, and nothing is dropped needlessly.
   */
  lemma {:induction false} TrimKeepsNewest(l: Limits, c: Cache) returns (n: nat)
    requires Consistent(c)
    ensures n <= |c.order| && Trim(l, c) == Newest(c, n) && Fits(l, Trim(l, c))
    ensures forall m: nat | n < m <= |c.order| :: Consistent(Newest(c, m)) && !Fits(l, Newest(c, m))
    decreases |c.order|
  {
    NewestWhole(c);
    if c.order == [] || Fits(l, c) {
      n := |c.order|;
    } else {
      DropConsistent(c);
      n := TrimKeepsNewest(l, DropOldest(c));
      NewestOfDropped(c, n);
      forall m: nat | n < m <= |c.order| ensures Consistent(Newest(c, m)) && !Fits(l, Newest(c, m)) {
        NewestConsistent(c, m);
        if m < |c.order| {
          NewestOfDropped(c, m);
        }
      }
    }
  }

  lemma NewestWhole(c: Cache)
    requires Consistent(c)
    ensures Newest(c, |c.order|) == c
  {
    assert c.order[0..] == c.order;
    assert Newest(c, |c.order|).pages == c.pages;
  }

  lemma NewestOneFits(l: Limits, c: Cache, k: Key, page: Page, bytes: nat)
    requires Consistent(c) && Accepts(l, bytes)
    ensures Consistent(Insert(c, k, page, bytes))
    ensures var one := Newest(Insert(c, k, page, bytes), 1); Consistent(one) && Fits(l, one)
  {
    InsertConsistent(c, k, page, bytes);
    var i := Insert(c, k, page, bytes);
    NewestConsistent(i, 1);
    assert Newest(i, 1).order == [k];
    assert [k][1..] == [];
    assert Total([k], Newest(i, 1).pages) == bytes;
  }

  /** A page that is accepted survives its own insertion, and the limits hold afterwards. */
  lemma AcceptedPageSurvives(l: Limits, c: Cache, k: Key, page: Page, bytes: nat)
    requires Consistent(c) && Accepts(l, bytes)
    ensures var later := Put(l, c, k, page, bytes);
            && Consistent(later) && Fits(l, later)
            && later.order != [] && later.order[|later.order| - 1] == k && later.pages[k] == Stored(page, bytes)
  {
    hide Trim, Fits, Remove, Consistent, Newest, Insert;
    NewestOneFits(l, c, k, page, bytes);
    InsertedLast(c, k, page, bytes);
    var i := Insert(c, k, page, bytes);
    var n := TrimKeepsNewest(l, i);
    assert n >= 1;
    NewestKeepsLast(i, n);
  }

  lemma InsertedLast(c: Cache, k: Key, page: Page, bytes: nat)
    ensures var i := Insert(c, k, page, bytes);
            i.order != [] && i.order[|i.order| - 1] == k && k in i.pages && i.pages[k] == Stored(page, bytes)
  {
    hide Remove;
  }

  lemma NewestKeepsLast(c: Cache, n: nat)
    requires 1 <= n <= |c.order| && c.order[|c.order| - 1] in c.pages
    ensures var k, newest := c.order[|c.order| - 1], Newest(c, n);
            newest.order != [] && newest.order[|newest.order| - 1] == k && k in newest.pages && newest.pages[k] == c.pages[k]
  {
  }

  /** A page is kept, as the most recent one, if it can fit on its own at all; otherwise nothing is disturbed. */
  lemma KeptIfItFits(l: Limits, c: Cache, k: Key, page: Page, bytes: nat)
    requires Consistent(c)
    ensures var later := Put(l, c, k, page, bytes);
            if l.entries > 0 && l.bytes > 0 && bytes <= l.bytes
            then later.order != [] && later.order[|later.order| - 1] == k && k in later.pages && later.pages[k] == Stored(page, bytes)
            else later == c
  {
    if Accepts(l, bytes) {
      AcceptedPageSurvives(l, c, k, page, bytes);
    } else {
    }
  }

  // ---- As a plain table --------------------------------------------------------------------

  /** The pages by key, without recency and sizes. */
  function Contents(pages: map<Key, Stored>): map<Key, Page> {
    map k | k in pages :: pages[k].page
  }

  function DropAll(table: map<Key, Page>, gone: seq<Key>): map<Key, Page> {
    if gone == [] then table else DropAll(table - {gone[0]}, gone[1..])
  }

  lemma {:induction false} DropAllExactly(table: map<Key, Page>, gone: seq<Key>)
    ensures forall k :: k in DropAll(table, gone) <==> k in table && k !in gone
    ensures forall k <- DropAll(table, gone) :: DropAll(table, gone)[k] == table[k]
    decreases |gone|
  {
    if gone != [] { DropAllExactly(table - {gone[0]}, gone[1..]); }
  }

  /** Eviction only drops entries. */
  lemma {:induction false} TrimDrops(l: Limits, c: Cache) returns (gone: seq<Key>)
    requires Consistent(c)
    ensures Contents(Trim(l, c).pages) == DropAll(Contents(c.pages), gone)
    decreases |c.order|
  {
    hide Consistent, Fits, Contents;
    if c.order == [] || Fits(l, c) {
      gone := [];
    } else {
      DropConsistent(c);
      var rest := TrimDrops(l, DropOldest(c));
      gone := [c.order[0]] + rest;
      assert gone[1..] == rest;
      ContentsMinus(c.pages, c.order[0]);
    }
  }

  lemma ContentsMinus(pages: map<Key, Stored>, k: Key)
    ensures Contents(pages - {k}) == Contents(pages) - {k}
  {
  }

  lemma ContentsPlus(pages: map<Key, Stored>, k: Key, page: Page, bytes: nat)
    ensures Contents(pages[k := Stored(page, bytes)]) == Contents(pages)[k := page]
  {
  }

  /** Dropping other keys commutes with adding one that survives. */
  lemma DropAround(table: map<Key, Page>, gone: seq<Key>, k: Key, page: Page)
    requires k in DropAll(table[k := page], gone)
    ensures DropAll(table[k := page], gone) == DropAll(table, gone)[k := page]
  {
    DropAllExactly(table[k := page], gone);
    DropAllExactly(table, gone);
    hide DropAll;
    assert DropAll(table[k := page], gone).Keys == DropAll(table, gone)[k := page].Keys;
  }

  /** An accepted insertion is: some other entries go, then the page is there. */
  lemma PutIsEviction(l: Limits, c: Cache, k: Key, page: Page, bytes: nat) returns (gone: seq<Key>)
    requires Consistent(c) && Accepts(l, bytes)
    ensures Contents(Put(l, c, k, page, bytes).pages) == DropAll(Contents(c.pages), gone)[k := page]
  {
    InsertConsistent(c, k, page, bytes);
    AcceptedPageSurvives(l, c, k, page, bytes);
    ContentsPlus(c.pages, k, page, bytes);
    assert k in Contents(Put(l, c, k, page, bytes).pages);
    hide Consistent, Fits, Contents, Trim, Remove, DropAll;
    gone := TrimDrops(l, Insert(c, k, page, bytes));
    DropAround(Contents(c.pages), gone, k, page);
  }

  // ---- Whole runs --------------------------------------------------------------------------

  datatype CacheOp = GetPage(key: Key) | PutPage(key: Key, page: Page, bytes: nat) | ClearAll

  function Apply(l: Limits, c: Cache, op: CacheOp): (later: Cache)
    requires Consistent(c)
    ensures Consistent(later)
  {
    match op
    case GetPage(k) => TouchConsistent(c, k); Touch(c, k)
    case PutPage(k, page, bytes) => Put(l, c, k, page, bytes)
    case ClearAll => Cache([], map[])
  }

  function Run(l: Limits, ops: seq<CacheOp>): (c: Cache)
    ensures Consistent(c)
  {
    if ops == [] then Cache([], map[]) else Apply(l, Run(l, ops[..|ops| - 1]), ops[|ops| - 1])
  }

  /** The page of the last insertion under the key that was not refused. */
  function LastAccepted(l: Limits, ops: seq<CacheOp>, k: Key): Option<Page> {
    if ops == [] then None
    else
      var op := ops[|ops| - 1];
      if op.PutPage? && op.key == k && Accepts(l, op.bytes) then Some(op.page)
      else LastAccepted(l, ops[..|ops| - 1], k)
  }

  /** When the key was last found or inserted; 0 if never. */
  function LastUse(l: Limits, ops: seq<CacheOp>, k: Key): (n: nat)
    ensures n <= |ops|
  {
    if ops == [] then 0
    else
      var op := ops[|ops| - 1];
      if (op.PutPage? && op.key == k && Accepts(l, op.bytes)) || (op.GetPage? && op.key == k && k in Run(l, ops[..|ops| - 1]).pages)
      then |ops|
      else LastUse(l, ops[..|ops| - 1], k)
  }

  predicate ByUse(l: Limits, ops: seq<CacheOp>, order: seq<Key>) {
    forall i, j | 0 <= i < j < |order| :: LastUse(l, ops, order[i]) < LastUse(l, ops, order[j])
  }

  lemma {:induction false} RemoveKeepsByUse(l: Limits, ops: seq<CacheOp>, order: seq<Key>, k: Key)
    requires ByUse(l, ops, order)
    ensures ByUse(l, ops, Remove(order, k))
  {
    hide LastUse;
    if order != [] {
      var rest := Remove(order[1..], k);
      forall i, j | 0 <= i < j < |order[1..]| ensures LastUse(l, ops, order[1..][i]) < LastUse(l, ops, order[1..][j]) {
        assert order[1..][i] == order[i + 1] && order[1..][j] == order[j + 1];
      }
      RemoveKeepsByUse(l, ops, order[1..], k);
      if order[0] != k {
        forall i, j | 0 <= i < j < |[order[0]] + rest|
          ensures LastUse(l, ops, ([order[0]] + rest)[i]) < LastUse(l, ops, ([order[0]] + rest)[j])
        {
          if i == 0 {
            var x :| 1 <= x < |order| && order[x] == rest[j - 1] by { assert rest[j - 1] in order[1..]; }
          }
        }
      }
    }
  }

  /** Re-inserting the used key at the young end keeps the order by last use. */
  lemma ReinsertByUse(l: Limits, before: seq<CacheOp>, op: CacheOp, order: seq<Key>, k: Key)
    requires ByUse(l, before, order)
    requires LastUse(l, before + [op], k) == |before| + 1
    requires forall x | x != k :: LastUse(l, before + [op], x) == LastUse(l, before, x)
    ensures ByUse(l, before + [op], Remove(order, k) + [k])
  {
    hide LastUse;
    RemoveKeepsByUse(l, before, order, k);
    var later := Remove(order, k) + [k];
    forall i, j | 0 <= i < j < |later| ensures LastUse(l, before + [op], later[i]) < LastUse(l, before + [op], later[j]) {
      assert later[i] in Remove(order, k);
      if j < |later| - 1 { assert later[j] in Remove(order, k); }
    }
  }

  lemma LastUseStep(l: Limits, before: seq<CacheOp>, op: CacheOp, x: Key)
    ensures LastUse(l, before + [op], x)
         == if (op.PutPage? && op.key == x && Accepts(l, op.bytes)) || (op.GetPage? && op.key == x && x in Run(l, before).pages)
            then |before| + 1 else LastUse(l, before, x)
  {
    assert (before + [op])[..|before + [op]| - 1] == before;
  }

  lemma NewestByUse(l: Limits, ops: seq<CacheOp>, c: Cache, n: nat)
    requires ByUse(l, ops, c.order) && n <= |c.order|
    ensures ByUse(l, ops, Newest(c, n).order)
  {
    hide LastUse;
  }

  lemma UsedStays(l: Limits, before: seq<CacheOp>, op: CacheOp, k: Key)
    requires op == GetPage(k) || (op.PutPage? && op.key == k)
    ensures forall x | x != k :: LastUse(l, before + [op], x) == LastUse(l, before, x)
  {
    forall x | x != k ensures LastUse(l, before + [op], x) == LastUse(l, before, x) { LastUseStep(l, before, op, x); }
  }

  lemma OtherUse(l: Limits, before: seq<CacheOp>, op: CacheOp)
    requires op.ClearAll? || (op.PutPage? && !Accepts(l, op.bytes)) || (op.GetPage? && op.key !in Run(l, before).pages)
    ensures forall order | ByUse(l, before, order) :: ByUse(l, before + [op], order)
  {
    forall x ensures LastUse(l, before + [op], x) == LastUse(l, before, x) { LastUseStep(l, before, op, x); }
  }

  lemma PutWithinLimits(l: Limits, before: seq<CacheOp>, op: CacheOp)
    requires op.PutPage? && ByUse(l, before, Run(l, before).order) && Accepts(l, op.bytes)
    ensures var later := Put(l, Run(l, before), op.key, op.page, op.bytes);
            Consistent(later) && Fits(l, later) && ByUse(l, before + [op], later.order)
  {
    var c := Run(l, before);
    var i := Insert(c, op.key, op.page, op.bytes);
    InsertConsistent(c, op.key, op.page, op.bytes);
    LastUseStep(l, before, op, op.key);
    UsedStays(l, before, op, op.key);
    ReinsertByUse(l, before, op, c.order, op.key);
    hide LastUse, Trim, ByUse, Fits, Run, Restrict, Consistent;
    var n := TrimKeepsNewest(l, i);
    NewestByUse(l, before + [op], i, n);
  }

  lemma GetWithinLimits(l: Limits, before: seq<CacheOp>, op: CacheOp)
    requires op.GetPage? && ByUse(l, before, Run(l, before).order) && Fits(l, Run(l, before))
    ensures var later := Touch(Run(l, before), op.key);
            Consistent(later) && Fits(l, later) && ByUse(l, before + [op], later.order)
  {
    var c := Run(l, before);
    TotalTouch(c, op.key);
    LastUseStep(l, before, op, op.key);
    if op.key in c.pages {
      UsedStays(l, before, op, op.key);
      ReinsertByUse(l, before, op, c.order, op.key);
    } else {
      OtherUse(l, before, op);
    }
  }

  /** After any run the cache is within its limits and ordered by last use. */
  lemma {:induction false} RunWithinLimits(l: Limits, ops: seq<CacheOp>)
    ensures Fits(l, Run(l, ops)) && ByUse(l, ops, Run(l, ops).order)
    decreases |ops|
  {
    if ops != [] {
      var before, op := ops[..|ops| - 1], ops[|ops| - 1];
      assert ops == before + [op];
      RunWithinLimits(l, before);
      hide ByUse, LastUse, Trim, Insert, Touch;
      match op {
        case GetPage(k) => GetWithinLimits(l, before, op);
        case PutPage(k, page, bytes) =>
          if Accepts(l, bytes) {
            PutWithinLimits(l, before, op);
          } else {
            OtherUse(l, before, op);
          }
        case ClearAll => NothingCached(l, ops);
      }
    }
  }

  lemma NothingCached(l: Limits, ops: seq<CacheOp>)
    ensures Fits(l, Cache([], map[])) && ByUse(l, ops, [])
  {
  }

  /** A hit returns the page of the last accepted insertion under that key. */
  lemma {:induction false} HitIsLastAccepted(l: Limits, ops: seq<CacheOp>, k: Key)
    requires k in Run(l, ops).pages
    ensures LastAccepted(l, ops, k) == Lookup(Run(l, ops), k)
    decreases |ops|
  {
    var before, op := ops[..|ops| - 1], ops[|ops| - 1];
    var c := Run(l, before);
    match op {
      case GetPage(_) => HitIsLastAccepted(l, before, k);
      case PutPage(key, page, bytes) =>
        if Accepts(l, bytes) {
          InsertConsistent(c, key, page, bytes);
          var n := TrimKeepsNewest(l, Insert(c, key, page, bytes));
          if k != key { HitIsLastAccepted(l, before, k); }
        } else {
          HitIsLastAccepted(l, before, k);
        }
      case ClearAll =>
    }
  }

  lemma {:induction false} TrimStep(l: Limits, c: Cache)
    requires Consistent(c) && c.order != [] && !Fits(l, c)
    ensures Consistent(DropOldest(c)) && Trim(l, c) == Trim(l, DropOldest(c))
  {
    DropConsistent(c);
  }

  // ---- The cache object --------------------------------------------------------------------

  class HistoricalPageCache {
    const limits: Limits
    var order: seq<Key>
    var pages: map<Key, Stored>
    var totalBytes: nat

    ghost function Model(): Cache
      reads this
    {
      Cache(order, pages)
    }

    /** The byte counter is the sum of the entry sizes, and both limits hold. */
    ghost predicate Valid()
      reads this
    {
      Consistent(Model()) && totalBytes == Total(order, pages) && Fits(limits, Model())
    }

    constructor (limits: Limits)
      ensures Valid() && this.limits == limits && Model() == Cache([], map[])
    {
      this.limits := limits;
      order, pages, totalBytes := [], map[], 0;
    }

    method GetCachedHistoricalPage(k: Key) returns (found: Option<Page>)
      requires Valid()
      modifies this
      ensures Valid() && Model() == Touch(old(Model()), k) && found == Lookup(old(Model()), k)
    {
      TotalTouch(Model(), k);
      if k !in pages {
        return None;
      }
      order := Remove(order, k);
      order := order + [k];
      return Some(pages[k].page);
    }

    method CacheHistoricalPage(k: Key, page: Page, bytes: nat)
      requires Valid()
      modifies this
      ensures Valid() && Model() == Put(limits, old(Model()), k, page, bytes)
    {
      if limits.entries == 0 || limits.bytes == 0 {
        return;
      }
      if bytes > limits.bytes {
        return;
      }
      hide Total, Fits, Trim, Remove, Consistent, Insert;
      AcceptedPageSurvives(limits, Model(), k, page, bytes);
      InsertLast(k, page, bytes);
      EvictOldest();
    }

    /** The page becomes the last entry, in place of an older one under its key. */
    method InsertLast(k: Key, page: Page, bytes: nat)
      requires Consistent(Model()) && totalBytes == Total(order, pages)
      modifies this
      ensures Consistent(Model()) && Model() == Insert(old(Model()), k, page, bytes) && totalBytes == Total(order, pages)
    {
      hide Total, Remove, Consistent;
      TotalInsert(Model(), k, page, bytes);
      if k in pages {
        Forget(k);
      } else {
        AbsentStays(Model(), k);
      }
      order := order + [k];
      pages := pages[k := Stored(page, bytes)];
      totalBytes := totalBytes + bytes;
      assert pages == old(pages)[k := Stored(page, bytes)];
    }

    /** The entry under this key is taken out, and with it its bytes. */
    method Forget(k: Key)
      requires Consistent(Model()) && totalBytes == Total(order, pages) && k in pages
      modifies this
      ensures order == Remove(old(order), k) && pages == old(pages) - {k}
      ensures totalBytes == old(totalBytes) - old(pages)[k].bytes
    {
      AtMostTotal(Model(), k);
      totalBytes := totalBytes - pages[k].bytes;
      order := Remove(order, k);
      pages := pages - {k};
    }

    /** The eviction loop: oldest first, while either limit is exceeded. */
    method EvictOldest()
      requires Consistent(Model()) && totalBytes == Total(order, pages)
      modifies this
      ensures Model() == Trim(limits, old(Model())) && totalBytes == Total(order, pages)
    {
      while |order| > limits.entries || totalBytes > limits.bytes
        invariant Consistent(Model()) && totalBytes == Total(order, pages)
        invariant Trim(limits, Model()) == Trim(limits, old(Model()))
        decreases |order|
      {
        hide Trim, Consistent;
        TrimStep(limits, Model());
        TotalDrop(Model());
        var oldest := order[0];
        totalBytes := totalBytes - pages[oldest].bytes;
        order, pages := order[1..], pages - {oldest};
      }
    }

    method ClearHistoricalPageCache()
      requires Valid()
      modifies this
      ensures Valid() && Model() == Cache([], map[])
    {
      order, pages, totalBytes := [], map[], 0;
    }
  }

  lemma AbsentStays(c: Cache, k: Key)
    requires Consistent(c) && k !in c.pages
    ensures Remove(c.order, k) == c.order
  {
  }

  lemma AtMostTotal(c: Cache, k: Key)
    requires Consistent(c) && k in c.pages
    ensures c.pages[k].bytes <= Total(c.order, c.pages)
  {
    TotalRemove(c.order, k, c.pages);
  }
}

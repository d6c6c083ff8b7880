/** Positional numerals, most significant digit first, as JavaScript prints and reads integers. */
module Numerals {

  type Digits = seq<nat>

  predicate InBase(ds: Digits, b: nat) {
    forall i | 0 <= i < |ds| :: ds[i] < b
  }

  function Value(ds: Digits, b: nat): nat {
    if ds == [] then 0 else Value(ds[..|ds| - 1], b) * b + ds[|ds| - 1]
  }

  lemma MulMonotone(x: nat, y: nat, b: nat)
    requires x <= y
    ensures x * b <= y * b
  {
    assert y * b - x * b == (y - x) * b;
  }

  lemma DivModUnique(q: nat, r: nat, b: nat)
    requires r < b
    ensures (q * b + r) / b == q && (q * b + r) % b == r
  {
    var n := q * b + r;
    var q', r' := n / b, n % b;
    assert n == q' * b + r' && 0 <= r' < b;
    assert (q' + 1) * b == q' * b + b;
    assert (q + 1) * b == q * b + b;
    if q' < q { MulMonotone(q' + 1, q, b); }
    if q < q' { MulMonotone(q + 1, q', b); }
  }

  lemma DivMod(n: nat, b: nat)
    requires b >= 2
    ensures n == (n / b) * b + n % b
  {
  }

  lemma DivShrinks(n: nat, b: nat)
    requires b >= 2 && n >= b
    ensures 0 < n / b < n
  {
    var q := n / b;
    assert n == q * b + n % b && n % b < b;
    MulMonotone(2, b, q);
    assert q * b == b * q && 2 * q <= b * q;
  }

  lemma DivBelow(n: nat, m: nat, b: nat)
    requires b >= 2 && n < b * m
    ensures n / b < m
  {
    var q := n / b;
    assert n == q * b + n % b && n % b < b;
    assert m * b == b * m;
    if m <= q { MulMonotone(m, q, b); }
  }

  lemma ValueSnoc(front: Digits, d: nat, b: nat)
    ensures Value(front + [d], b) == Value(front, b) * b + d
  {
    assert (front + [d])[..|front|] == front;
  }

  /** toString(b): no leading zero, a single zero for zero. */
  function Print(n: nat, b: nat): (ds: Digits)
    requires b >= 2
    ensures ds != [] && InBase(ds, b)
    ensures |ds| > 1 ==> ds[0] != 0
    ensures n > 0 ==> ds[0] != 0
    ensures Value(ds, b) == n
    decreases n
  {
    if n < b then
      ValueSnoc([], n, b);
      assert [] + [n] == [n];
      [n]
    else
      DivShrinks(n, b);
      DivMod(n, b);
      var q, r := n / b, n % b;
      var front := Print(q, b);
      ValueSnoc(front, r, b);
      front + [r]
  }

  /** A numeral without superfluous leading zeros. */
  predicate Minimal(ds: Digits, b: nat) {
    ds != [] && InBase(ds, b) && (|ds| > 1 ==> ds[0] != 0)
  }

  lemma {:induction false} LeadingNonZero(ds: Digits, b: nat)
    requires b >= 2 && ds != [] && InBase(ds, b) && ds[0] != 0
    ensures Value(ds, b) > 0
    ensures |ds| > 1 ==> Value(ds, b) >= b
  {
    if |ds| > 1 {
      var front := ds[..|ds| - 1];
      LeadingNonZero(front, b);
      MulMonotone(1, Value(front, b), b);
    } else {
      assert ds[..0] == [];
      assert Value([], b) * b == 0;
    }
  }

  /** Printing inverts reading exactly on minimal numerals. */
  lemma {:induction false} PrintValue(ds: Digits, b: nat)
    requires b >= 2 && Minimal(ds, b)
    ensures Print(Value(ds, b), b) == ds
  {
    var front, last := ds[..|ds| - 1], ds[|ds| - 1];
    assert ds == front + [last];
    if |ds| > 1 {
      LeadingNonZero(ds, b);
      DivModUnique(Value(front, b), last, b);
      PrintValue(front, b);
    } else {
      assert Value([], b) * b == 0;
    }
  }

  function Pow(b: nat, k: nat): nat {
    if k == 0 then 1 else b * Pow(b, k - 1)
  }

  lemma SnocBelow(v: nat, d: nat, m: nat, b: nat)
    requires v < m && d < b
    ensures v * b + d < b * m
  {
    MulMonotone(v + 1, m, b);
    assert (v + 1) * b == v * b + b;
  }

  lemma {:induction false} ValueBelow(ds: Digits, b: nat)
    requires b >= 2 && InBase(ds, b)
    ensures Value(ds, b) < Pow(b, |ds|)
  {
    if ds != [] {
      var front, last := ds[..|ds| - 1], ds[|ds| - 1];
      ValueBelow(front, b);
      SnocBelow(Value(front, b), last, Pow(b, |front|), b);
    }
  }

  lemma {:induction false} PrintFits(n: nat, k: nat, b: nat)
    requires b >= 2 && k >= 1 && n < Pow(b, k)
    ensures |Print(n, b)| <= k
    decreases k
  {
    assert Pow(b, 1) == b * Pow(b, 0) == b;
    if n >= b {
      DivBelow(n, Pow(b, k - 1), b);
      PrintFits(n / b, k - 1, b);
    }
  }

  function Zeros(k: nat): (ds: Digits)
    ensures |ds| == k && forall i | 0 <= i < k :: ds[i] == 0
  {
    seq(k, _ => 0)
  }

  lemma {:induction false} ValueIgnoresZeros(j: nat, ds: Digits, b: nat)
    ensures Value(Zeros(j) + ds, b) == Value(ds, b)
    decreases j + |ds|
  {
    var all := Zeros(j) + ds;
    if ds != [] {
      var front, last := ds[..|ds| - 1], ds[|ds| - 1];
      ValueIgnoresZeros(j, front, b);
      assert all == (Zeros(j) + front) + [last] && ds == front + [last];
      hide Value;
      ValueSnoc(Zeros(j) + front, last, b);
      ValueSnoc(front, last, b);
    } else if j > 0 {
      ValueIgnoresZeros(j - 1, [], b);
      assert all == (Zeros(j - 1) + []) + [0];
      ValueSnoc(Zeros(j - 1) + [], 0, b);
    } else {
      assert all == ds;
    }
  }

  /** Padding the printed value back to the original width restores any digit sequence. */
  lemma {:induction false} PadPrintValue(ds: Digits, b: nat)
    requires b >= 2 && ds != [] && InBase(ds, b)
    ensures var p := Print(Value(ds, b), b); |p| <= |ds| && Zeros(|ds| - |p|) + p == ds
  {
    if |ds| == 1 || ds[0] != 0 {
      PrintValue(ds, b);
    } else {
      PadPrintValue(ds[1..], b);
      assert ds == Zeros(1) + ds[1..];
      ValueIgnoresZeros(1, ds[1..], b);
      var p := Print(Value(ds, b), b);
      assert Zeros(|ds| - |p|) + p == Zeros(1) + (Zeros(|ds| - 1 - |p|) + p);
    }
  }

  // ---- Decimal text ------------------------------------------------------------------------

  predicate IsDigit(c: char) { '0' <= c <= '9' }

  function DigitOf(c: char): (d: nat)
    requires IsDigit(c)
    ensures d < 10
  {
    c as int - '0' as int
  }

  function DigitsOf(s: string): (ds: Digits)
    requires forall i | 0 <= i < |s| :: IsDigit(s[i])
    ensures |ds| == |s| && InBase(ds, 10)
    ensures forall i | 0 <= i < |s| :: ds[i] == DigitOf(s[i])
  {
    if s == [] then [] else [DigitOf(s[0])] + DigitsOf(s[1..])
  }

  function TextOf(ds: Digits): (s: string)
    requires InBase(ds, 10)
    ensures |s| == |ds| && forall i | 0 <= i < |s| :: IsDigit(s[i])
  {
    seq(|ds|, i requires 0 <= i < |ds| => ('0' as int + ds[i]) as char)
  }

  /** String(n) for a non-negative integer. */
  function Decimal(n: nat): (s: string)
    ensures s != "" && forall i | 0 <= i < |s| :: IsDigit(s[i])
  {
    TextOf(Print(n, 10))
  }

  predicate IsNumber(s: string) {
    s != "" && forall i | 0 <= i < |s| :: IsDigit(s[i])
  }

  /** BigInt(s) for digit strings. */
  function Number(s: string): nat
    requires IsNumber(s)
  {
    Value(DigitsOf(s), 10)
  }

  /** The amounts parseWatchSpec admits and the Indexer prints: digits without a leading zero. */
  predicate Canonical(s: string) {
    IsNumber(s) && (|s| > 1 ==> s[0] != '0')
  }

  lemma NumberDecimal(n: nat)
    ensures Canonical(Decimal(n)) && Number(Decimal(n)) == n
  {
    assert DigitsOf(Decimal(n)) == Print(n, 10);
  }

  lemma DecimalNumber(s: string)
    requires Canonical(s)
    ensures Decimal(Number(s)) == s
  {
    PrintValue(DigitsOf(s), 10);
    assert TextOf(DigitsOf(s)) == s;
  }
}

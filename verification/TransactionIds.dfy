/**
 Algorand transaction identifiers: a 256-bit digest in unpadded Base32 (RFC 4648, section 6).
 The service never decodes one; it only decides whether a text is canonical (section 3.5).
 */
module TransactionIds {
  import opened Common
  import opened Numerals

  predicate InAlphabet(c: char) {
    'A' <= c <= 'Z' || '2' <= c <= '7'
  }

  /** parseCanonicalAlgorandTransactionId: length, alphabet and the four unused bits of the last symbol. */
  predicate Accepts(s: string) {
    && |s| == 52
    && (forall i | 0 <= i < 52 :: InAlphabet(s[i]))
    && (s[51] == 'A' || s[51] == 'Q')
  }

  function Symbol(d: nat): (c: char)
    requires d < 32
    ensures InAlphabet(c)
  {
    if d < 26 then ('A' as int + d) as char else ('2' as int + d - 26) as char
  }

  function Rank(c: char): (d: nat)
    requires InAlphabet(c)
    ensures d < 32 && Symbol(d) == c
  {
    if 'A' <= c <= 'Z' then c as int - 'A' as int else c as int - '2' as int + 26
  }

  function Symbols(ds: Digits): (s: string)
    requires InBase(ds, 32)
    ensures |s| == |ds| && forall i | 0 <= i < |s| :: InAlphabet(s[i]) && s[i] == Symbol(ds[i])
  {
    seq(|ds|, i requires 0 <= i < |ds| => Symbol(ds[i]))
  }

  function Ranks(s: string): (ds: Digits)
    requires forall i | 0 <= i < |s| :: InAlphabet(s[i])
    ensures |ds| == |s| && InBase(ds, 32)
    ensures forall i | 0 <= i < |s| :: ds[i] == Rank(s[i])
  {
    if s == [] then [] else [Rank(s[0])] + Ranks(s[1..])
  }

  /** A SHA-256 digest: 256 bits, most significant first. */
  ghost predicate Digest(bits: seq<nat>) {
    |bits| == 256 && InBase(bits, 2)
  }

  /** padStart(width, '0'); no effect on a text that is already long enough. */
  function PadStart(ds: Digits, width: nat): Digits {
    if |ds| < width then Zeros(width - |ds|) + ds else ds
  }

  /**
   The encoder, on the digest read as an integer: append four zero bits, print in radix 32,
   pad to 52 symbols, map to the alphabet.
   */
  function Encode(digest: nat): string {
    var padded := PadStart(Print(digest * 16, 32), 52);
    assert InBase(padded, 32);
    Symbols(padded)
  }

  lemma SymbolsOfRanks(s: string)
    requires forall i | 0 <= i < |s| :: InAlphabet(s[i])
    ensures Symbols(Ranks(s)) == s
  {
  }

  // ---- RFC 4648 section 6, stated independently over bits -----------------------------------

  function BitAt(bits: seq<nat>, p: nat): (b: nat)
    requires InBase(bits, 2)
    ensures b < 2
  {
    if p < |bits| then bits[p] else 0
  }

  /** The i-th group of five bits; bits past the end are zero. */
  function GroupAt(bits: seq<nat>, i: nat): (v: nat)
    requires InBase(bits, 2)
    ensures v < 32
  {
    16 * BitAt(bits, 5 * i) + 8 * BitAt(bits, 5 * i + 1) + 4 * BitAt(bits, 5 * i + 2)
      + 2 * BitAt(bits, 5 * i + 3) + BitAt(bits, 5 * i + 4)
  }

  function Groups(bits: seq<nat>, k: nat): (ds: Digits)
    requires InBase(bits, 2)
    ensures |ds| == k && InBase(ds, 32) && forall i | 0 <= i < k :: ds[i] == GroupAt(bits, i)
  {
    seq(k, i requires 0 <= i < k => GroupAt(bits, i))
  }

  /** The unpadded text: one symbol for each started group of five bits. */
  function Rfc4648(bits: seq<nat>): string
    requires InBase(bits, 2)
  {
    Symbols(Groups(bits, (|bits| + 4) / 5))
  }

  lemma FiveSnocs(front: Digits, a: nat, b: nat, c: nat, d: nat, e: nat)
    ensures Value(front + [a, b, c, d, e], 2) == Value(front, 2) * 32 + 16 * a + 8 * b + 4 * c + 2 * d + e
  {
    ValueSnoc(front, a, 2);
    ValueSnoc(front + [a], b, 2);
    ValueSnoc(front + [a] + [b], c, 2);
    ValueSnoc(front + [a] + [b] + [c], d, 2);
    ValueSnoc(front + [a] + [b] + [c] + [d], e, 2);
    assert front + [a, b, c, d, e] == front + [a] + [b] + [c] + [d] + [e];
  }

  lemma GroupsSnoc(bits: seq<nat>, k: nat)
    requires InBase(bits, 2) && k > 0
    ensures Value(Groups(bits, k), 32) == Value(Groups(bits, k - 1), 32) * 32 + GroupAt(bits, k - 1)
  {
    ValueSnoc(Groups(bits, k - 1), GroupAt(bits, k - 1), 32);
    assert Groups(bits, k) == Groups(bits, k - 1) + [GroupAt(bits, k - 1)];
  }

  lemma {:induction false} GroupsKeepValue(bits: seq<nat>, k: nat)
    requires InBase(bits, 2) && 5 * k <= |bits|
    ensures Value(Groups(bits, k), 32) == Value(bits[..5 * k], 2)
  {
    if k > 0 {
      var j := 5 * (k - 1);
      GroupsKeepValue(bits, k - 1);
      assert bits[..5 * k] == bits[..j] + [bits[j], bits[j + 1], bits[j + 2], bits[j + 3], bits[j + 4]];
      hide Value, Groups;
      GroupsSnoc(bits, k);
      FiveSnocs(bits[..j], bits[j], bits[j + 1], bits[j + 2], bits[j + 3], bits[j + 4]);
    }
  }

  lemma AppendFourZeroBits(bits: seq<nat>)
    ensures Value(bits + Zeros(4), 2) == Value(bits, 2) * 16
  {
    ValueSnoc(bits, 0, 2);
    ValueSnoc(bits + [0], 0, 2);
    ValueSnoc(bits + [0] + [0], 0, 2);
    ValueSnoc(bits + [0] + [0] + [0], 0, 2);
    assert bits + Zeros(4) == bits + [0] + [0] + [0] + [0];
  }

  lemma DigestGroups(bits: seq<nat>)
    requires Digest(bits)
    ensures Value(Groups(bits, 52), 32) == Value(bits, 2) * 16
  {
    var filled := bits + Zeros(4);
    assert Groups(filled, 52) == Groups(bits, 52) by {
      assert forall p: nat :: BitAt(filled, p) == BitAt(bits, p);
    }
    GroupsKeepValue(filled, 52);
    assert filled[..260] == filled;
    AppendFourZeroBits(bits);
  }

  /** The shift-and-print encoder agrees with RFC 4648 on every digest. */
  lemma EncoderIsRfc4648(bits: seq<nat>)
    requires Digest(bits)
    ensures Encode(Value(bits, 2)) == Rfc4648(bits)
  {
    DigestGroups(bits);
    PadPrintValue(Groups(bits, 52), 32);
  }

  // ---- The acceptor and the encoder agree --------------------------------------------------

  function BitOf(v: nat, i: nat): (b: nat)
    requires v < 32 && i < 5
    ensures b < 2
  {
    if i == 0 then v / 16 else if i == 1 then v / 8 % 2 else if i == 2 then v / 4 % 2
    else if i == 3 then v / 2 % 2 else v % 2
  }

  function DecodedBit(s: string, p: nat): (b: nat)
    requires Accepts(s) && p < 256
    ensures b < 2
  {
    BitOf(Rank(s[p / 5]), p % 5)
  }

  /** The digest a canonical identifier stands for: five bits from each symbol, the last four dropped. */
  function Decode(s: string): (bits: seq<nat>)
    requires Accepts(s)
    ensures |bits| == 256 && InBase(bits, 2) && forall p | 0 <= p < 256 :: bits[p] == DecodedBit(s, p)
  {
    seq(256, p requires 0 <= p < 256 => DecodedBit(s, p))
  }

  lemma GroupBits(bits: seq<nat>, i: nat, j: nat)
    requires InBase(bits, 2) && j < 5
    ensures BitOf(GroupAt(bits, i), j) == BitAt(bits, 5 * i + j)
  {
  }

  lemma RfcAccepted(bits: seq<nat>)
    requires Digest(bits)
    ensures Accepts(Rfc4648(bits))
  {
    assert GroupAt(bits, 51) == 16 * bits[255];
    assert Rfc4648(bits)[51] == Symbol(GroupAt(bits, 51));
  }

  lemma DecodeRfc(bits: seq<nat>, p: nat)
    requires Digest(bits) && p < 256 && Accepts(Rfc4648(bits))
    ensures DecodedBit(Rfc4648(bits), p) == bits[p]
  {
    GroupBits(bits, p / 5, p % 5);
    SymbolRank(GroupAt(bits, p / 5));
  }

  lemma SymbolRank(d: nat)
    requires d < 32
    ensures Rank(Symbol(d)) == d
  {
  }

  /** Every digest is encoded to an identifier the acceptor takes, and is recovered from it. */
  lemma EncodeAccepted(bits: seq<nat>)
    requires Digest(bits)
    ensures Accepts(Encode(Value(bits, 2))) && Decode(Encode(Value(bits, 2))) == bits
  {
    EncoderIsRfc4648(bits);
    var s := Rfc4648(bits);
    RfcAccepted(bits);
    forall p | 0 <= p < 256 ensures Decode(s)[p] == bits[p] { DecodeRfc(bits, p); }
  }

  lemma BitsOf(v: nat)
    requires v < 32
    ensures v == 16 * BitOf(v, 0) + 8 * BitOf(v, 1) + 4 * BitOf(v, 2) + 2 * BitOf(v, 3) + BitOf(v, 4)
    ensures v == 0 || v == 16 ==> BitOf(v, 1) == BitOf(v, 2) == BitOf(v, 3) == BitOf(v, 4) == 0
  {
  }

  lemma DecodedBitAt(s: string, i: nat, j: nat)
    requires Accepts(s) && i < 52 && j < 5
    ensures BitAt(Decode(s), 5 * i + j) == BitOf(Rank(s[i]), j)
  {
    assert (5 * i + j) / 5 == i && (5 * i + j) % 5 == j;
    if 5 * i + j >= 256 {
      assert i == 51 && j >= 1;
      BitsOf(Rank(s[51]));
    }
  }

  lemma DecodedGroup(s: string, i: nat)
    requires Accepts(s) && i < 52
    ensures GroupAt(Decode(s), i) == Rank(s[i])
  {
    DecodedBitAt(s, i, 0);
    DecodedBitAt(s, i, 1);
    DecodedBitAt(s, i, 2);
    DecodedBitAt(s, i, 3);
    DecodedBitAt(s, i, 4);
    BitsOf(Rank(s[i]));
  }

  /** The acceptor takes nothing else: every accepted text is the encoding of one digest. */
  lemma AcceptedEncoded(s: string)
    requires Accepts(s)
    ensures Digest(Decode(s)) && Encode(Value(Decode(s), 2)) == s
  {
    var bits := Decode(s);
    forall i | 0 <= i < 52 ensures GroupAt(bits, i) == Rank(s[i]) { DecodedGroup(s, i); }
    assert Groups(bits, 52) == Ranks(s);
    SymbolsOfRanks(s);
    EncoderIsRfc4648(bits);
  }

  /** Canonicality: the accepted texts are exactly the encodings of digests. */
  lemma AcceptsExactlyEncodings(s: string)
    ensures Accepts(s) <==> exists bits :: Digest(bits) && Encode(Value(bits, 2)) == s
  {
    if Accepts(s) { AcceptedEncoded(s); }
    if bits :| Digest(bits) && Encode(Value(bits, 2)) == s { EncodeAccepted(bits); }
  }

  /** No two digests share an identifier. */
  lemma EncoderInjective(a: seq<nat>, b: seq<nat>)
    requires Digest(a) && Digest(b) && Encode(Value(a, 2)) == Encode(Value(b, 2))
    ensures a == b
  {
    EncodeAccepted(a);
    EncodeAccepted(b);
  }
}

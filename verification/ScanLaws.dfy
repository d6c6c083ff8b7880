/**
 What the scan layer guarantees: requests with the same key validate every body alike, no query
 variant loses a payment, and the inner-transaction inspection is exhaustive and bounded.
 */
module ScanLaws {
  import opened Common
  import opened Numerals
  import opened Watches
  import opened ScanQueries

  // ---- One key, one validation -------------------------------------------------------------

  /** Either the two amounts are the same text, or neither is a text the Indexer can print. */
  predicate AmountsAgree(a: Spec, b: Spec) {
    a.amount == b.amount || (!Canonical(a.amount) && !Canonical(b.amount))
  }

  lemma SameFilters(e: Envelope, a: Spec, p: Plan, b: Spec, q: Plan, variant: Variant, minRound: nat, maxRound: nat)
    requires BuildPlan(a, variant) == Ok(p) && BuildPlan(b, variant) == Ok(q)
    requires BuildQuery(a, variant, minRound, maxRound).Ok?
    requires BuildQuery(a, variant, minRound, maxRound) == BuildQuery(b, variant, minRound, maxRound)
    requires (p.exactAmount ==> AmountsAgree(a, b)) && Canonical(e.amount)
    ensures Satisfies(e, a, p) == Satisfies(e, b, q)
  {
  }

  lemma EnvelopeAmountCanonical(raw: RawTx, requireId: bool)
    requires ParseEnvelope(raw, requireId).Ok?
    ensures Canonical(ParseEnvelope(raw, requireId).value.amount)
  {
    NumberDecimal(raw.transfer.value.amount.value);
  }

  /** Two watches whose requests are the same URL and whose amounts agree as text. */
  ghost predicate SameRequest(a: Spec, b: Spec, variant: Variant, minRound: nat, maxRound: nat) {
    && BuildQuery(a, variant, minRound, maxRound).Ok?
    && BuildQuery(a, variant, minRound, maxRound) == BuildQuery(b, variant, minRound, maxRound)
    && (variant != A ==> AmountsAgree(a, b))
  }

  lemma {:induction false} SameInspection(raw: RawTx, minRound: nat, maxRound: nat, a: Spec, b: Spec,
                                          variant: Variant, depth: nat, visited: nat)
    requires SameRequest(a, b, variant, minRound, maxRound)
    ensures Inspect(raw, minRound, maxRound, a, BuildPlan(a, variant).value, depth, visited)
         == Inspect(raw, minRound, maxRound, b, BuildPlan(b, variant).value, depth, visited)
    decreases raw, 0
  {
    var e := ParseEnvelope(raw, false);
    if e.Ok? {
      EnvelopeAmountCanonical(raw, false);
      SameFilters(e.value, a, BuildPlan(a, variant).value, b, BuildPlan(b, variant).value, variant, minRound, maxRound);
    }
    if raw.RawTx? && raw.inner.InnerArray? {
      SameInspections(raw.inner.children, minRound, maxRound, a, b, variant, depth + 1, visited + 1);
    }
  }

  lemma {:induction false} SameInspections(raws: seq<RawTx>, minRound: nat, maxRound: nat, a: Spec, b: Spec,
                                           variant: Variant, depth: nat, visited: nat)
    requires SameRequest(a, b, variant, minRound, maxRound)
    ensures InspectAll(raws, minRound, maxRound, a, BuildPlan(a, variant).value, depth, visited)
         == InspectAll(raws, minRound, maxRound, b, BuildPlan(b, variant).value, depth, visited)
    decreases raws, |raws|
  {
    if raws != [] {
      SameInspection(raws[0], minRound, maxRound, a, b, variant, depth, visited);
      var first := Inspect(raws[0], minRound, maxRound, a, BuildPlan(a, variant).value, depth, visited);
      if first.Ok? {
        SameInspections(raws[1..], minRound, maxRound, a, b, variant, depth, first.value.1);
      }
    }
  }

  lemma SameItem(raw: RawTx, minRound: nat, maxRound: nat, a: Spec, b: Spec, variant: Variant)
    requires SameRequest(a, b, variant, minRound, maxRound)
    ensures ParseItem(raw, minRound, maxRound, a, BuildPlan(a, variant).value)
         == ParseItem(raw, minRound, maxRound, b, BuildPlan(b, variant).value)
  {
    var e := ParseEnvelope(raw, true);
    if e.Ok? {
      EnvelopeAmountCanonical(raw, true);
      SameFilters(e.value, a, BuildPlan(a, variant).value, b, BuildPlan(b, variant).value, variant, minRound, maxRound);
    }
    if raw.RawTx? && raw.inner.InnerArray? {
      SameInspections(raw.inner.children, minRound, maxRound, a, b, variant, 1, 0);
    }
  }

  lemma {:induction false} SameItems(raws: seq<RawTx>, minRound: nat, maxRound: nat, a: Spec, b: Spec, variant: Variant)
    requires SameRequest(a, b, variant, minRound, maxRound)
    ensures ParseItems(raws, minRound, maxRound, a, BuildPlan(a, variant).value)
         == ParseItems(raws, minRound, maxRound, b, BuildPlan(b, variant).value)
  {
    if raws != [] {
      SameItem(raws[0], minRound, maxRound, a, b, variant);
      SameItems(raws[1..], minRound, maxRound, a, b, variant);
    }
  }

  /** Sharing a response between requests with one key is transparent: every body parses alike. */
  lemma SharingIsTransparent(raw: RawPage, minRound: nat, maxRound: nat, a: Spec, b: Spec, variant: Variant)
    requires SameRequest(a, b, variant, minRound, maxRound)
    ensures ParsePage(raw, minRound, maxRound, a, variant) == ParsePage(raw, minRound, maxRound, b, variant)
  {
    SameItems(raw.items, minRound, maxRound, a, b, variant);
  }

  /**
   Why the texts must agree: the key carries the amount as a number, the validation compares its text.
   An asset transfer accepted for one watch is accepted for the other exactly when the texts are equal.
   */
  lemma SharingNeedsAmountText(raw: RawTx, minRound: nat, maxRound: nat, a: Spec, b: Spec, variant: Variant)
    requires BuildQuery(a, variant, minRound, maxRound).Ok? && variant != A
    requires BuildQuery(a, variant, minRound, maxRound) == BuildQuery(b, variant, minRound, maxRound)
    requires raw.RawTx? && raw.txType == Present("axfer")
    requires ParseItem(raw, minRound, maxRound, a, BuildPlan(a, variant).value).Ok?
    ensures ParseItem(raw, minRound, maxRound, b, BuildPlan(b, variant).value).Ok? <==> a.amount == b.amount
  {
  }

  function Watching(amount: string): Spec {
    Spec("key", "PAYER", "SHOP", 31566704, amount, None)
  }

  function PaymentOfOne(): RawTx {
    var id := seq(52, i => 'A');
    RawTx(Present(id), Present("PAYER"), Absent, Present(5), Present(5), Present("axfer"),
          Present(RawTransfer(Absent, Absent, Absent, Present("SHOP"), Present(31566704), Present(1))), NoInner)
  }

  lemma OneAndZeroOne()
    ensures IsNumber("1") && IsNumber("01") && Number("1") == Number("01") == 1 && Decimal(1) == "1"
  {
    assert DigitsOf("1") == [1] && DigitsOf("01") == [0, 1];
    assert [1][1..] == [] && [0, 1][1..] == [1];
    assert [1][..0] == [] && [0, 1][..1] == [0] && [0][..0] == [];
    DecimalNumber("1");
  }

  /** The failing input: watches for "1" and "01" ask the same question, and only one of them accepts the answer. */
  lemma SharingFailsForLeadingZero(variant: Variant)
    requires variant != A
    ensures var a, b, body := Watching("1"), Watching("01"), RawPage([PaymentOfOne()], Present(10), None);
            && BuildQuery(a, variant, 1, 10).Ok? && BuildQuery(a, variant, 1, 10) == BuildQuery(b, variant, 1, 10)
            && ParsePage(body, 1, 10, a, variant).Ok? && |ParsePage(body, 1, 10, a, variant).value.transactions| == 1
            && ParsePage(body, 1, 10, b, variant).Thrown?
  {
    OneAndZeroOne();
    hide Number, Decimal, IsNumber;
    var a, b, raw := Watching("1"), Watching("01"), PaymentOfOne();
    assert ParseEnvelope(raw, true).Ok? && ParseEnvelope(raw, true).value.amount == "1";
    assert ParseItem(raw, 1, 10, a, BuildPlan(a, variant).value) == Ok(DirectTransfer(raw)) && DirectTransfer(raw).Some?;
    assert ParseItem(raw, 1, 10, b, BuildPlan(b, variant).value).Thrown?;
    assert [raw][1..] == [];
  }

  /** Two amounts the request form admits and that make the same request are the same text. */
  lemma AdmittedAmountsAgree(a: Spec, b: Spec, variant: Variant, minRound: nat, maxRound: nat)
    requires BuildQuery(a, variant, minRound, maxRound).Ok? && variant != A
    requires BuildQuery(a, variant, minRound, maxRound) == BuildQuery(b, variant, minRound, maxRound)
    requires Canonical(a.amount) && Canonical(b.amount)
    ensures a.amount == b.amount
  {
    DecimalNumber(a.amount);
    DecimalNumber(b.amount);
  }

  // ---- What a validated page contains ------------------------------------------------------

  /** The direct transfers among raw transactions, in order. */
  function Directs(raws: seq<RawTx>): seq<Transfer> {
    if raws == [] then []
    else (if DirectTransfer(raws[0]).Some? then [DirectTransfer(raws[0]).value] else []) + Directs(raws[1..])
  }

  lemma ItemContent(raw: RawTx, minRound: nat, maxRound: nat, spec: Spec, plan: Plan)
    requires ParseItem(raw, minRound, maxRound, spec, plan).Ok?
    ensures ParseItem(raw, minRound, maxRound, spec, plan).value == DirectTransfer(raw)
  {
  }

  /** A page that validates holds exactly its direct transfers, in order, whoever asked for it. */
  lemma {:induction false} PageContent(raws: seq<RawTx>, minRound: nat, maxRound: nat, spec: Spec, plan: Plan)
    requires ParseItems(raws, minRound, maxRound, spec, plan).Ok?
    ensures ParseItems(raws, minRound, maxRound, spec, plan).value == Directs(raws)
  {
    if raws != [] {
      ItemContent(raws[0], minRound, maxRound, spec, plan);
      PageContent(raws[1..], minRound, maxRound, spec, plan);
    }
  }

  lemma {:induction false} DirectListed(raws: seq<RawTx>, raw: RawTx)
    requires raw in raws && DirectTransfer(raw).Some?
    ensures DirectTransfer(raw).value in Directs(raws)
  {
    if raws[0] != raw { DirectListed(raws[1..], raw); }
  }

  lemma {:induction false} ListedDirect(raws: seq<RawTx>, t: Transfer)
    requires t in Directs(raws)
    ensures exists raw :: raw in raws && DirectTransfer(raw) == Some(t)
  {
    if DirectTransfer(raws[0]) != Some(t) {
      ListedDirect(raws[1..], t);
      var raw :| raw in raws[1..] && DirectTransfer(raw) == Some(t);
      assert raw in raws;
    }
  }

  // ---- No query variant loses a payment ----------------------------------------------------

  /** The provider's filters on one asset transfer, wherever in a transaction it stands. */
  predicate Selected(e: Envelope, q: Query) {
    && e.asset == q.asset
    && (if q.byReceiver then e.receiver == q.address
        else e.common.sender == q.address || e.assetSender == Some(q.address))
    && (q.amountBetween.Some? ==>
          IsNumber(e.amount) && q.amountBetween.value.0 < Number(e.amount) < q.amountBetween.value.1)
    && (q.notePrefix.Some? ==> HasPrefix(e.common.note, q.notePrefix.value))
  }

  /** What the provider returns for a query, over confirmed top-level asset transfers. */
  predicate Returned(raw: RawTx, q: Query) {
    var e := ParseEnvelope(raw, true);
    e.Ok? && ShapeHolds(raw, "axfer") && InRange(e.value.common.round, q.minRound, q.maxRound) && Selected(e.value, q)
  }

  lemma SelectionAgrees(e: Envelope, spec: Spec, variant: Variant, minRound: nat, maxRound: nat)
    requires BuildQuery(spec, variant, minRound, maxRound).Ok? && Canonical(spec.amount) && Canonical(e.amount)
    ensures Satisfies(e, spec, BuildPlan(spec, variant).value) <==> Selected(e, BuildQuery(spec, variant, minRound, maxRound).value)
  {
    AmountBetween(e.amount, spec.amount);
    hide Number, Canonical;
  }

  lemma AmountBetween(a: string, b: string)
    requires Canonical(a) && Canonical(b)
    ensures IsNumber(a) && IsNumber(b) && (a == b <==> Number(b) as int - 1 < Number(a) < Number(b) + 1)
  {
    DecimalNumber(a);
    DecimalNumber(b);
  }

  /** The client accepts exactly the transfers the provider was asked for. */
  lemma AcceptsWhatItAsked(raw: RawTx, spec: Spec, variant: Variant, minRound: nat, maxRound: nat)
    requires BuildQuery(spec, variant, minRound, maxRound).Ok? && Canonical(spec.amount)
    requires raw.RawTx? && raw.txType == Present("axfer")
    ensures ParseItem(raw, minRound, maxRound, spec, BuildPlan(spec, variant).value).Ok?
       <==> Returned(raw, BuildQuery(spec, variant, minRound, maxRound).value)
  {
    var e := ParseEnvelope(raw, true);
    if e.Ok? {
      EnvelopeAmountCanonical(raw, true);
      SelectionAgrees(e.value, spec, variant, minRound, maxRound);
      hide Selected, Satisfies, BuildPlan;
    } else {
    }
  }

  /** Every payment the contract accepts passes the filters of every variant. */
  lemma NoVariantLosesPayment(raw: RawTx, w: Row, variant: Variant, minRound: nat, maxRound: nat)
    requires BuildQuery(w.spec, variant, minRound, maxRound).Ok?
    requires DirectTransfer(raw).Some? && Matches(DirectTransfer(raw).value, w)
    requires ShapeHolds(raw, "axfer") && InRange(DirectTransfer(raw).value.round, minRound, maxRound)
    ensures Returned(raw, BuildQuery(w.spec, variant, minRound, maxRound).value)
  {
    EnvelopeAmountCanonical(raw, true);
  }

  function MatchesIn(ts: seq<Transfer>, w: Row): seq<Transfer> {
    if ts == [] then [] else (if Matches(ts[0], w) then [ts[0]] else []) + MatchesIn(ts[1..], w)
  }

  lemma {:induction false} MatchesInAppend(a: seq<Transfer>, b: seq<Transfer>, w: Row)
    ensures MatchesIn(a + b, w) == MatchesIn(a, w) + MatchesIn(b, w)
  {
    hide Matches;
    if a == [] {
      assert a + b == b;
    } else {
      MatchesInAppend(a[1..], b, w);
      assert (a + b)[1..] == a[1..] + b;
    }
  }

  // ---- Inner transactions ------------------------------------------------------------------

  /** Every node of the tree is a well-formed transaction inside the window. */
  ghost predicate GoodTree(raw: RawTx, minRound: nat, maxRound: nat) {
    var shared := ParseShared(raw, false);
    && shared.Ok? && ShapeHolds(raw, shared.value.txType)
    && InRange(shared.value.round, minRound, maxRound)
    && (shared.value.txType == "axfer" ==> ParseEnvelope(raw, false).Ok?)
    && (raw.inner.InnerArray? ==>
          forall i | 0 <= i < |raw.inner.children| :: GoodTree(raw.inner.children[i], minRound, maxRound))
  }

  function Nodes(raw: RawTx): nat
    decreases raw, 0
  {
    1 + if raw.RawTx? && raw.inner.InnerArray? then NodesIn(raw.inner.children) else 0
  }

  function NodesIn(raws: seq<RawTx>): nat
    decreases raws, |raws|
  {
    if raws == [] then 0 else Nodes(raws[0]) + NodesIn(raws[1..])
  }

  /** Levels of the tree, the node itself included. */
  function Height(raw: RawTx): nat
    decreases raw, 0
  {
    1 + if raw.RawTx? && raw.inner.InnerArray? then HeightIn(raw.inner.children) else 0
  }

  function HeightIn(raws: seq<RawTx>): nat
    decreases raws, |raws|
  {
    if raws == [] then 0
    else if Height(raws[0]) >= HeightIn(raws[1..]) then Height(raws[0]) else HeightIn(raws[1..])
  }

  /** Some asset transfer anywhere in the tree meets the request's filters. */
  ghost predicate SomeSatisfies(raw: RawTx, spec: Spec, plan: Plan) {
    || (ParseEnvelope(raw, false).Ok? && Satisfies(ParseEnvelope(raw, false).value, spec, plan))
    || (raw.RawTx? && raw.inner.InnerArray? &&
          exists i :: 0 <= i < |raw.inner.children| && SomeSatisfies(raw.inner.children[i], spec, plan))
  }

  /** Asset transfers are leaves, and only they have an envelope. */
  lemma TransfersAreLeaves(raw: RawTx)
    ensures ParseEnvelope(raw, false).Ok? ==> ParseShared(raw, false).Ok? && ParseShared(raw, false).value.txType == "axfer"
    ensures ParseShared(raw, false).Ok? ==> raw.RawTx?
    ensures raw.RawTx? && ShapeHolds(raw, "axfer") ==> !raw.inner.InnerArray?
  {
  }

  /**
   The inspection is exhaustive and bounded: it succeeds exactly on well-formed trees within the node
   and depth limits, and then answers whether any asset transfer in the tree meets the filters.
   */
  lemma {:induction false} InspectionExact(raw: RawTx, minRound: nat, maxRound: nat, spec: Spec, plan: Plan,
                                           depth: nat, visited: nat)
    requires depth >= 1
    ensures var r := Inspect(raw, minRound, maxRound, spec, plan, depth, visited);
            && (r.Ok? <==> GoodTree(raw, minRound, maxRound)
                           && depth - 1 + Height(raw) <= MAX_INNER_DEPTH
                           && visited + Nodes(raw) <= MAX_INNER_ITEMS)
            && (r.Ok? ==> r.value == (SomeSatisfies(raw, spec, plan), visited + Nodes(raw)))
    decreases raw, 0
  {
    hide ParseShared, ParseEnvelope, ShapeHolds, Satisfies, InRange;
    TransfersAreLeaves(raw);
    if raw.RawTx? && raw.inner.InnerArray? {
      InspectionsExact(raw.inner.children, minRound, maxRound, spec, plan, depth + 1, visited + 1);
    } else {
    }
  }

  lemma {:induction false} InspectionsExact(raws: seq<RawTx>, minRound: nat, maxRound: nat, spec: Spec, plan: Plan,
                                            depth: nat, visited: nat)
    requires depth >= 1
    ensures var r := InspectAll(raws, minRound, maxRound, spec, plan, depth, visited);
            && (r.Ok? <==> (forall i | 0 <= i < |raws| :: GoodTree(raws[i], minRound, maxRound))
                           && (raws != [] ==> depth - 1 + HeightIn(raws) <= MAX_INNER_DEPTH)
                           && (raws != [] ==> visited + NodesIn(raws) <= MAX_INNER_ITEMS))
            && (r.Ok? ==> && r.value.1 == visited + NodesIn(raws)
                          && (r.value.0 <==> exists i :: 0 <= i < |raws| && SomeSatisfies(raws[i], spec, plan)))
    decreases raws, |raws|
  {
    if raws != [] {
      InspectionExact(raws[0], minRound, maxRound, spec, plan, depth, visited);
      var first := Inspect(raws[0], minRound, maxRound, spec, plan, depth, visited);
      if first.Ok? {
        InspectionsExact(raws[1..], minRound, maxRound, spec, plan, depth, first.value.1);
        assert forall i | 1 <= i < |raws| :: raws[i] == raws[1..][i - 1];
      }
    }
  }

  // ---- No query variant changes what is found ----------------------------------------------

  /** Some asset transfer anywhere in the tree is selected. */
  ghost predicate SelectedWithin(raw: RawTx, q: Query) {
    || (ParseEnvelope(raw, false).Ok? && Selected(ParseEnvelope(raw, false).value, q))
    || (raw.RawTx? && raw.inner.InnerArray? &&
          exists i :: 0 <= i < |raw.inner.children| && SelectedWithin(raw.inner.children[i], q))
  }

  /** A confirmed application call whose inner transactions are well formed and within the limits. */
  ghost predicate GoodParent(raw: RawTx, minRound: nat, maxRound: nat) {
    var shared := ParseShared(raw, true);
    && shared.Ok? && shared.value.txType == "appl" && ShapeHolds(raw, "appl")
    && InRange(shared.value.round, minRound, maxRound)
    && raw.inner.InnerArray? && raw.inner.children != [] && NodesIn(raw.inner.children) <= MAX_INNER_ITEMS
    && HeightIn(raw.inner.children) <= MAX_INNER_DEPTH
    && forall i | 0 <= i < |raw.inner.children| :: GoodTree(raw.inner.children[i], minRound, maxRound)
  }

  /** The provider returns an application call for the transfers inside it. */
  ghost predicate ReturnedParent(raw: RawTx, q: Query) {
    raw.RawTx? && raw.inner.InnerArray? && exists i :: 0 <= i < |raw.inner.children| && SelectedWithin(raw.inner.children[i], q)
  }

  lemma {:induction false} SelectionAgreesWithin(raw: RawTx, spec: Spec, variant: Variant, minRound: nat, maxRound: nat)
    requires BuildQuery(spec, variant, minRound, maxRound).Ok? && Canonical(spec.amount)
    ensures SomeSatisfies(raw, spec, BuildPlan(spec, variant).value)
       <==> SelectedWithin(raw, BuildQuery(spec, variant, minRound, maxRound).value)
    decreases raw
  {
    var plan, q := BuildPlan(spec, variant).value, BuildQuery(spec, variant, minRound, maxRound).value;
    hide BuildQuery, BuildPlan, Satisfies, Selected, ParseEnvelope;
    if ParseEnvelope(raw, false).Ok? {
      EnvelopeAmountCanonical(raw, false);
      SelectionAgrees(ParseEnvelope(raw, false).value, spec, variant, minRound, maxRound);
    }
    if raw.RawTx? && raw.inner.InnerArray? {
      forall i | 0 <= i < |raw.inner.children|
        ensures SomeSatisfies(raw.inner.children[i], spec, plan) <==> SelectedWithin(raw.inner.children[i], q)
      {
        SelectionAgreesWithin(raw.inner.children[i], spec, variant, minRound, maxRound);
      }
    }
  }

  lemma {:induction false} FewerThanNodes(raws: seq<RawTx>)
    ensures |raws| <= NodesIn(raws)
  {
    if raws != [] { FewerThanNodes(raws[1..]); }
  }

  /** The client accepts an application call exactly when it was returned for what is inside, and finds no payment in it. */
  lemma ParentParses(raw: RawTx, spec: Spec, variant: Variant, minRound: nat, maxRound: nat)
    requires BuildQuery(spec, variant, minRound, maxRound).Ok? && Canonical(spec.amount) && GoodParent(raw, minRound, maxRound)
    ensures ParseItem(raw, minRound, maxRound, spec, BuildPlan(spec, variant).value)
         == if ReturnedParent(raw, BuildQuery(spec, variant, minRound, maxRound).value) then Ok(None) else Thrown
    ensures DirectTransfer(raw).None? && !Returned(raw, BuildQuery(spec, variant, minRound, maxRound).value)
  {
    var plan, q := BuildPlan(spec, variant).value, BuildQuery(spec, variant, minRound, maxRound).value;
    var inner := raw.inner.children;
    assert ParseEnvelope(raw, true).Thrown?;
    hide BuildQuery, BuildPlan, ParseShared, ParseEnvelope, GoodTree, SomeSatisfies, SelectedWithin, NodesIn, HeightIn, InspectAll;
    FewerThanNodes(inner);
    InspectionsExact(inner, minRound, maxRound, spec, plan, 1, 0);
    forall i | 0 <= i < |inner| ensures SomeSatisfies(inner[i], spec, plan) <==> SelectedWithin(inner[i], q) {
      SelectionAgreesWithin(inner[i], spec, variant, minRound, maxRound);
    }
  }

  /** What the provider returns for a query, out of everything confirmed in a window. */
  ghost function Answer(raws: seq<RawTx>, q: Query): seq<RawTx> {
    if raws == [] then []
    else (if Returned(raws[0], q) || ReturnedParent(raws[0], q) then [raws[0]] else []) + Answer(raws[1..], q)
  }

  /** A confirmed top-level asset transfer of the window. */
  ghost predicate GoodTransfer(raw: RawTx, minRound: nat, maxRound: nat) {
    && raw.RawTx? && raw.txType == Present("axfer") && ShapeHolds(raw, "axfer")
    && (DirectTransfer(raw).Some? ==> InRange(DirectTransfer(raw).value.round, minRound, maxRound))
  }

  /** The asset transfers and application calls confirmed in a round window. */
  ghost predicate Window(raws: seq<RawTx>, minRound: nat, maxRound: nat) {
    forall i | 0 <= i < |raws| :: GoodTransfer(raws[i], minRound, maxRound) || GoodParent(raws[i], minRound, maxRound)
  }

  function DirectOf(raw: RawTx): seq<Transfer> {
    if DirectTransfer(raw).Some? then [DirectTransfer(raw).value] else []
  }

  /** One confirmed transaction contributes the same matches whether or not the provider returns it. */
  lemma OneContributes(raw: RawTx, w: Row, variant: Variant, minRound: nat, maxRound: nat)
    requires BuildQuery(w.spec, variant, minRound, maxRound).Ok? && Canonical(w.spec.amount)
    requires GoodTransfer(raw, minRound, maxRound) || GoodParent(raw, minRound, maxRound)
    ensures var q := BuildQuery(w.spec, variant, minRound, maxRound).value;
            var item := ParseItem(raw, minRound, maxRound, w.spec, BuildPlan(w.spec, variant).value);
            if Returned(raw, q) || ReturnedParent(raw, q) then item == Ok(DirectTransfer(raw))
            else MatchesIn(DirectOf(raw), w) == []
  {
    var plan := BuildPlan(w.spec, variant).value;
    var q := BuildQuery(w.spec, variant, minRound, maxRound).value;
    if GoodParent(raw, minRound, maxRound) {
      ParentParses(raw, w.spec, variant, minRound, maxRound);
    } else {
      AcceptsWhatItAsked(raw, w.spec, variant, minRound, maxRound);
      assert !ReturnedParent(raw, q);
      hide BuildQuery, BuildPlan, Matches;
      if Returned(raw, q) {
        ItemContent(raw, minRound, maxRound, w.spec, plan);
      } else if DirectTransfer(raw).Some? && Matches(DirectTransfer(raw).value, w) {
        NoVariantLosesPayment(raw, w, variant, minRound, maxRound);
      }
    }
  }

  /**
   Scanning a window finds the same payments in the same order under all four variants: exactly the direct
   transfers of the window that meet the contract. Which application calls come back with them differs.
   */
  lemma {:induction false} EveryVariantFindsTheSame(raws: seq<RawTx>, w: Row, variant: Variant, minRound: nat, maxRound: nat)
    requires BuildQuery(w.spec, variant, minRound, maxRound).Ok? && Canonical(w.spec.amount)
    requires Window(raws, minRound, maxRound)
    ensures var q := BuildQuery(w.spec, variant, minRound, maxRound).value;
            var parsed := ParseItems(Answer(raws, q), minRound, maxRound, w.spec, BuildPlan(w.spec, variant).value);
            parsed.Ok? && MatchesIn(parsed.value, w) == MatchesIn(Directs(raws), w)
  {
    if raws != [] {
      var plan := BuildPlan(w.spec, variant).value;
      var q := BuildQuery(w.spec, variant, minRound, maxRound).value;
      var raw, rest := raws[0], Answer(raws[1..], q);
      EveryVariantFindsTheSame(raws[1..], w, variant, minRound, maxRound);
      OneContributes(raw, w, variant, minRound, maxRound);
      hide BuildQuery, BuildPlan, ParseItem, Returned, ReturnedParent, GoodTransfer, GoodParent, DirectTransfer, MatchesIn;
      MatchesInAppend(DirectOf(raw), Directs(raws[1..]), w);
      if Returned(raw, q) || ReturnedParent(raw, q) {
        assert ([raw] + rest)[1..] == rest;
        MatchesInAppend(DirectOf(raw), ParseItems(rest, minRound, maxRound, w.spec, plan).value, w);
      } else {
        assert Answer(raws, q) == rest;
      }
    }
  }
}

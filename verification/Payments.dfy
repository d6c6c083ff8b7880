/**
 The payment contract on transactions as the Indexer sends them, field by field: which asset transfers a scan
 accepts, which of them it delivers as payments, and which of those pay for a watch. Nothing here uses the
 scan layer's own parsing; the lemmas prove that the scan layer says the same.
 */
module Payments {
  import opened Common
  import opened Numerals
  import opened Watches
  import opened ScanQueries
  import opened ScanLaws
  import TransactionIds

  predicate Filled(f: Field<string>) { f.Present? && f.value != "" }

  predicate Safe(f: Field<nat>) { f.Present? && f.value <= 9007199254740991 }

  /** What every transaction has, whatever its type; an identifier is required of top-level ones. */
  predicate CommonHolds(raw: RawTx, requireId: bool) {
    && raw.RawTx? && (raw.id.Absent? ==> !requireId) && !raw.id.Malformed? && (raw.id.Present? ==> TransactionIds.Accepts(raw.id.value))
    && !raw.note.Malformed? && raw.note != Present([]) && Filled(raw.sender) && Safe(raw.round) && Safe(raw.roundTime)
    && raw.txType.Present? && raw.txType.value in ["pay", "keyreg", "acfg", "axfer", "afrz", "appl", "stpf", "hb"]
  }

  /** The transfer of an asset transfer, its own fields only. */
  predicate TransferHolds(raw: RawTx)
    requires raw.RawTx?
  {
    && raw.transfer.Present?
    && var t := raw.transfer.value;
    && Filled(t.receiver) && Safe(t.asset) && Safe(t.amount)
    && (t.sender.Absent? || Filled(t.sender)) && (t.closeTo.Absent? || Filled(t.closeTo))
    && (t.closeAmount.Absent? || (Safe(t.closeAmount) && (t.closeTo.Absent? ==> t.closeAmount.value == 0)))
  }

  /** Every field of a top-level asset transfer is there where it must be, and in range. */
  predicate FieldsHold(raw: RawTx) {
    CommonHolds(raw, true) && raw.txType == Present("axfer") && TransferHolds(raw)
  }

  /** Neither the clawback's asset sender nor a close-out address is named. */
  predicate IsPayment(raw: RawTx) {
    FieldsHold(raw) && raw.transfer.value.sender.Absent? && raw.transfer.value.closeTo.Absent?
  }

  function PaymentOf(raw: RawTx): Transfer
    requires IsPayment(raw)
  {
    var t := raw.transfer.value;
    Transfer(raw.id.value, raw.sender.value, t.receiver.value, t.asset.value, Decimal(t.amount.value),
             raw.round.value, raw.roundTime.value, if raw.note.Present? then Some(raw.note.value) else None)
  }

  /** The payments among raw transactions, in order. */
  function PaymentsIn(raws: seq<RawTx>): seq<Transfer> {
    if raws == [] then [] else (if IsPayment(raws[0]) then [PaymentOf(raws[0])] else []) + PaymentsIn(raws[1..])
  }

  lemma DirectIsPayment(raw: RawTx)
    ensures DirectTransfer(raw) == if IsPayment(raw) then Some(PaymentOf(raw)) else None
  {
    hide Decimal;
  }

  lemma {:induction false} DirectsArePayments(raws: seq<RawTx>)
    ensures Directs(raws) == PaymentsIn(raws)
  {
    hide DirectTransfer, IsPayment, PaymentOf;
    if raws != [] {
      DirectIsPayment(raws[0]);
      DirectsArePayments(raws[1..]);
    }
  }

  lemma {:induction false} PaymentsListed(raws: seq<RawTx>)
    ensures forall t <- PaymentsIn(raws) :: exists raw :: raw in raws && IsPayment(raw) && PaymentOf(raw) == t
    ensures forall raw <- raws | IsPayment(raw) :: PaymentOf(raw) in PaymentsIn(raws)
  {
    hide IsPayment, PaymentOf;
    if raws != [] {
      PaymentsListed(raws[1..]);
      forall t <- PaymentsIn(raws) ensures exists raw :: raw in raws && IsPayment(raw) && PaymentOf(raw) == t {
        if t in PaymentsIn(raws[1..]) {
          var raw :| raw in raws[1..] && IsPayment(raw) && PaymentOf(raw) == t;
          assert raw in raws;
        } else {
          assert raws[0] in raws;
        }
      }
      forall raw <- raws | IsPayment(raw) ensures PaymentOf(raw) in PaymentsIn(raws) {
        if raw != raws[0] { assert raw in raws[1..]; }
      }
    }
  }

  /**
   A validated page delivers exactly the payments of the body, in order: what it delivers is an asset transfer of
   the body without asset sender and without close-out, field for field, and every such transfer is delivered.
   */
  lemma PageDeliversPayments(raw: RawPage, minRound: nat, maxRound: nat, spec: Spec, variant: Variant)
    requires ParsePage(raw, minRound, maxRound, spec, variant).Ok?
    ensures var page := ParsePage(raw, minRound, maxRound, spec, variant).value;
            && page.transactions == PaymentsIn(raw.items)
            && (forall t <- page.transactions :: exists item :: item in raw.items && IsPayment(item) && PaymentOf(item) == t)
            && (forall item <- raw.items | IsPayment(item) :: PaymentOf(item) in page.transactions)
            && raw.currentRound == Present(page.currentRound)
            && page.next == (if raw.next == Some("") then None else raw.next)
  {
    hide IsPayment, PaymentOf, Directs, ParseItems;
    PageContent(raw.items, minRound, maxRound, spec, BuildPlan(spec, variant).value);
    DirectsArePayments(raw.items);
    PaymentsListed(raw.items);
  }

  // ---- What a scan accepts -----------------------------------------------------------------

  /** A scan can be planned: every variant but the first filters by a positive decimal amount. */
  predicate Plannable(spec: Spec, variant: Variant) {
    variant.A? || (IsNumber(spec.amount) && Number(spec.amount) > 0)
  }

  /** What each variant wants of a transfer: A the payer and asset, B the amount too, C the note's beginning too, D like C by payee. */
  predicate WantsTransfer(spec: Spec, variant: Variant, raw: RawTx)
    requires raw.RawTx? && raw.sender.Present? && !raw.note.Malformed? && TransferHolds(raw)
  {
    var t := raw.transfer.value;
    && t.asset.value == spec.asset
    && (if variant.D? then t.receiver.value == spec.receiver
        else raw.sender.value == spec.sender || t.sender == Present(spec.sender))
    && (!variant.A? ==> Decimal(t.amount.value) == spec.amount)
    && ((variant.C? || variant.D?) && spec.note.Some? ==> raw.note.Present? && spec.note.value <= raw.note.value)
  }

  /** An asset transfer is accepted exactly when it is well formed, in the window, and what the variant wants. */
  lemma TransferAccepted(raw: RawTx, minRound: nat, maxRound: nat, spec: Spec, variant: Variant)
    requires raw.RawTx? && raw.txType == Present("axfer")
    ensures BuildPlan(spec, variant).Ok? <==> Plannable(spec, variant)
    ensures BuildPlan(spec, variant).Ok? ==>
              var item := ParseItem(raw, minRound, maxRound, spec, BuildPlan(spec, variant).value);
              && (item.Ok? <==> FieldsHold(raw) && raw.inner.NoInner? && minRound <= raw.round.value <= maxRound && WantsTransfer(spec, variant, raw))
              && (item.Ok? ==> item.value == if IsPayment(raw) then Some(PaymentOf(raw)) else None)
  {
    hide Decimal, Number;
    DirectIsPayment(raw);
  }

  lemma {:induction false} ItemsAccepted(raws: seq<RawTx>, minRound: nat, maxRound: nat, spec: Spec, plan: Plan)
    ensures ParseItems(raws, minRound, maxRound, spec, plan).Ok? <==> forall raw <- raws :: ParseItem(raw, minRound, maxRound, spec, plan).Ok?
  {
    hide ParseItem;
    if raws != [] {
      ItemsAccepted(raws[1..], minRound, maxRound, spec, plan);
      assert forall raw :: raw in raws <==> raw == raws[0] || raw in raws[1..];
    }
  }

  /** One item that is not accepted spoils the page, and nothing else does but its size or its round. */
  lemma PageAccepted(raw: RawPage, minRound: nat, maxRound: nat, spec: Spec, variant: Variant)
    ensures ParsePage(raw, minRound, maxRound, spec, variant).Ok?
       <==> && Plannable(spec, variant) && |raw.items| <= 1000 && Safe(raw.currentRound)
            && forall item <- raw.items :: ParseItem(item, minRound, maxRound, spec, BuildPlan(spec, variant).value).Ok?
  {
    if BuildPlan(spec, variant).Ok? {
      ItemsAccepted(raw.items, minRound, maxRound, spec, BuildPlan(spec, variant).value);
    }
  }

  /** The request says what the variant filters by, the amount as open bounds on either side. */
  lemma QuerySays(spec: Spec, variant: Variant, minRound: nat, maxRound: nat, amount: nat)
    ensures var q := BuildQuery(spec, variant, minRound, maxRound);
            && (q.Ok? <==> minRound <= maxRound <= 9007199254740991 && Plannable(spec, variant))
            && (q.Ok? ==>
                  && q.value.asset == spec.asset && q.value.minRound == minRound && q.value.maxRound == maxRound
                  && q.value.byReceiver == variant.D? && q.value.address == (if variant.D? then spec.receiver else spec.sender)
                  && (variant.A? <==> q.value.amountBetween.None?)
                  && (!variant.A? ==> (amount == Number(spec.amount) <==> q.value.amountBetween.value.0 < amount < q.value.amountBetween.value.1))
                  && q.value.notePrefix == if variant.C? || variant.D? then spec.note else None)
  {
    hide Number;
  }

  // ---- Application calls -------------------------------------------------------------------

  /** Asset transfers carry a transfer, application calls may carry inner transactions, others neither. */
  predicate ShapeFits(raw: RawTx)
    requires raw.RawTx?
  {
    && (raw.txType != Present("axfer") ==> raw.transfer.Absent?)
    && (raw.txType == Present("appl") ==> !raw.inner.InnerNotArray?)
    && (raw.txType != Present("appl") ==> raw.inner.NoInner?)
  }

  /** Every transaction of the tree is well formed and inside the window. */
  ghost predicate TreeHolds(raw: RawTx, minRound: nat, maxRound: nat) {
    && CommonHolds(raw, false) && ShapeFits(raw) && minRound <= raw.round.value <= maxRound
    && (raw.txType.value == "axfer" ==> TransferHolds(raw))
    && (raw.inner.InnerArray? ==> forall i | 0 <= i < |raw.inner.children| :: TreeHolds(raw.inner.children[i], minRound, maxRound))
  }

  /** Some asset transfer of the tree is what the variant wants. */
  ghost predicate HoldsWanted(raw: RawTx, spec: Spec, variant: Variant) {
    || (CommonHolds(raw, false) && raw.txType.value == "axfer" && TransferHolds(raw) && WantsTransfer(spec, variant, raw))
    || (raw.RawTx? && raw.inner.InnerArray? &&
          exists i :: 0 <= i < |raw.inner.children| && HoldsWanted(raw.inner.children[i], spec, variant))
  }

  lemma CommonOnFields(raw: RawTx, requireId: bool)
    ensures ParseShared(raw, requireId).Ok? <==> CommonHolds(raw, requireId)
    ensures CommonHolds(raw, requireId) ==>
              var c := ParseShared(raw, requireId).value;
              && c.round == raw.round.value && c.txType == raw.txType.value && c.sender == raw.sender.value
              && c.note == (if raw.note.Present? then Some(raw.note.value) else None)
              && (ShapeHolds(raw, c.txType) <==> ShapeFits(raw))
  {
    hide TransactionIds.Accepts;
  }

  lemma InnerOnFields(raw: RawTx, spec: Spec, variant: Variant)
    requires BuildPlan(spec, variant).Ok?
    ensures ParseEnvelope(raw, false).Ok? <==> CommonHolds(raw, false) && raw.txType.value == "axfer" && TransferHolds(raw)
    ensures ParseEnvelope(raw, false).Ok? ==>
              (Satisfies(ParseEnvelope(raw, false).value, spec, BuildPlan(spec, variant).value) <==> WantsTransfer(spec, variant, raw))
  {
    CommonOnFields(raw, false);
    hide ParseShared, CommonHolds, Decimal, Number;
  }

  lemma {:induction false} TreeOnFields(raw: RawTx, minRound: nat, maxRound: nat, spec: Spec, variant: Variant)
    requires BuildPlan(spec, variant).Ok?
    ensures GoodTree(raw, minRound, maxRound) <==> TreeHolds(raw, minRound, maxRound)
    ensures SomeSatisfies(raw, spec, BuildPlan(spec, variant).value) <==> HoldsWanted(raw, spec, variant)
  {
    CommonOnFields(raw, false);
    InnerOnFields(raw, spec, variant);
    hide ParseShared, ParseEnvelope, CommonHolds, ShapeHolds, ShapeFits, TransferHolds, WantsTransfer, Satisfies, BuildPlan;
    if raw.RawTx? && raw.inner.InnerArray? {
      forall i | 0 <= i < |raw.inner.children|
        ensures GoodTree(raw.inner.children[i], minRound, maxRound) <==> TreeHolds(raw.inner.children[i], minRound, maxRound)
        ensures SomeSatisfies(raw.inner.children[i], spec, BuildPlan(spec, variant).value) <==> HoldsWanted(raw.inner.children[i], spec, variant)
      {
        TreeOnFields(raw.inner.children[i], minRound, maxRound, spec, variant);
      }
    }
  }

  /**
   Anything but an asset transfer is accepted exactly when it is a well-formed application call in the window with
   inner transactions, at most 1000 of them and 16 deep, all well formed and in the window, one of which the variant
   wants; and it delivers no payment.
   */
  lemma CallAccepted(raw: RawTx, minRound: nat, maxRound: nat, spec: Spec, variant: Variant)
    requires raw.RawTx? && raw.txType != Present("axfer") && BuildPlan(spec, variant).Ok?
    ensures var item := ParseItem(raw, minRound, maxRound, spec, BuildPlan(spec, variant).value);
            && (item.Ok? <==>
                  && CommonHolds(raw, true) && raw.txType.value == "appl" && raw.transfer.Absent?
                  && minRound <= raw.round.value <= maxRound && raw.inner.InnerArray? && raw.inner.children != []
                  && NodesIn(raw.inner.children) <= 1000 && HeightIn(raw.inner.children) <= 16
                  && (forall i | 0 <= i < |raw.inner.children| :: TreeHolds(raw.inner.children[i], minRound, maxRound))
                  && exists i :: 0 <= i < |raw.inner.children| && HoldsWanted(raw.inner.children[i], spec, variant))
            && (item.Ok? ==> item.value.None?)
  {
    CommonOnFields(raw, true);
    hide ParseShared, CommonHolds, GoodTree, TreeHolds, SomeSatisfies, HoldsWanted, BuildPlan, InspectAll, NodesIn, HeightIn;
    if raw.inner.InnerArray? {
      var inner, plan := raw.inner.children, BuildPlan(spec, variant).value;
      FewerThanNodes(inner);
      InspectionsExact(inner, minRound, maxRound, spec, plan, 1, 0);
      forall i | 0 <= i < |inner|
        ensures GoodTree(inner[i], minRound, maxRound) <==> TreeHolds(inner[i], minRound, maxRound)
        ensures SomeSatisfies(inner[i], spec, plan) <==> HoldsWanted(inner[i], spec, variant)
      {
        TreeOnFields(inner[i], minRound, maxRound, spec, variant);
      }
    }
  }

  // ---- What pays for a watch ---------------------------------------------------------------

  /** The transaction, as sent, meets the whole contract of the watch. A watch without a note takes any. */
  predicate PaysFor(raw: RawTx, w: Row) {
    && IsPayment(raw) && w.activationRound.Some? && w.expiresAt.Some?
    && raw.sender == Present(w.spec.sender) && raw.transfer.value.receiver == Present(w.spec.receiver)
    && raw.transfer.value.asset == Present(w.spec.asset) && Decimal(raw.transfer.value.amount.value) == w.spec.amount
    && w.activationRound.value < raw.round.value && raw.roundTime.value * 1000 < w.expiresAt.value
    && (w.spec.note.Some? ==> raw.note == Present(w.spec.note.value))
  }

  lemma ContractOnFields(raw: RawTx, w: Row)
    ensures PaysFor(raw, w) <==> DirectTransfer(raw).Some? && Matches(DirectTransfer(raw).value, w)
    ensures PaysFor(raw, w) ==> DirectTransfer(raw) == Some(PaymentOf(raw))
  {
    hide Decimal, DirectTransfer;
    DirectIsPayment(raw);
  }
}

/**
 The Indexer client's pure layer: the scan query plan, the request it becomes, the validation of
 what comes back, and the payment contract itself. Responses are structured records in which any
 field may be absent or malformed; a thrown error is `Thrown`.
 */
module ScanQueries {
  import opened Common
  import opened Numerals
  import opened Watches
  import TransactionIds

  type Bytes = seq<bv8>

  datatype Variant = A | B | C | D

  // ---- Responses as received ---------------------------------------------------------------

  datatype Field<+T> = Absent | Malformed | Present(value: T)

  datatype RawTransfer = RawTransfer(
    sender: Field<string>,
    closeTo: Field<string>,
    closeAmount: Field<nat>,
    receiver: Field<string>,
    asset: Field<nat>,
    amount: Field<nat>)

  datatype RawTx =
    | NotAnObject
    | RawTx(
        id: Field<string>,
        sender: Field<string>,
        note: Field<Bytes>,
        round: Field<nat>,
        roundTime: Field<nat>,
        txType: Field<string>,
        transfer: Field<RawTransfer>,
        inner: Inner)

  datatype Inner = NoInner | InnerNotArray | InnerArray(children: seq<RawTx>)

  datatype RawPage = RawPage(items: seq<RawTx>, currentRound: Field<nat>, next: Option<string>)

  // ---- Parsed evidence ---------------------------------------------------------------------

  /** A confirmed top-level direct asset transfer. */
  datatype Transfer = Transfer(
    tx: string,
    sender: string,
    receiver: string,
    asset: nat,
    amount: string,
    round: nat,
    roundTime: nat,
    note: Option<Bytes>)

  datatype Page = Page(transactions: seq<Transfer>, currentRound: nat, next: Option<string>)

  datatype Shared = Shared(
    tx: Option<string>,
    sender: string,
    round: nat,
    roundTime: nat,
    txType: string,
    note: Option<Bytes>)

  datatype Envelope = Envelope(
    common: Shared,
    receiver: string,
    asset: nat,
    amount: string,
    assetSender: Option<string>,
    closeTo: Option<string>)

  // ---- Field checks ------------------------------------------------------------------------

  const MAX_SAFE_INTEGER: nat := 9007199254740991
  const MAX_PAGE_ITEMS: nat := 1000
  const MAX_INNER_ITEMS: nat := 1000
  const MAX_INNER_DEPTH: nat := 16

  predicate SafeRound(f: Field<nat>) {
    f.Present? && f.value <= MAX_SAFE_INTEGER
  }

  predicate NonEmpty(f: Field<string>) {
    f.Present? && f.value != ""
  }

  predicate OptionalNonEmpty(f: Field<string>) {
    f.Absent? || NonEmpty(f)
  }

  function OptionOf<T>(f: Field<T>): Option<T> {
    if f.Present? then Some(f.value) else None
  }

  predicate SupportedType(t: string) {
    t in {"pay", "keyreg", "acfg", "axfer", "afrz", "appl", "stpf", "hb"}
  }

  /** parseTransactionCommon. An empty note text is not canonical Base64. */
  function ParseShared(raw: RawTx, requireId: bool): Result<Shared> {
    if raw.NotAnObject? then Thrown
    else if !(if requireId || !raw.id.Absent? then raw.id.Present? && TransactionIds.Accepts(raw.id.value) else true) then Thrown
    else if !(raw.note.Absent? || (raw.note.Present? && raw.note.value != [])) then Thrown
    else if !NonEmpty(raw.txType) || !SupportedType(raw.txType.value) then Thrown
    else if !NonEmpty(raw.sender) || !SafeRound(raw.round) || !SafeRound(raw.roundTime) then Thrown
    else Ok(Shared(OptionOf(raw.id), raw.sender.value, raw.round.value, raw.roundTime.value,
                   raw.txType.value, OptionOf(raw.note)))
  }

  /** assertTransactionEnvelopeShape. */
  predicate ShapeHolds(raw: RawTx, txType: string)
    requires raw.RawTx?
  {
    if txType == "axfer" then raw.inner.NoInner?
    else
      && raw.transfer.Absent?
      && (raw.inner.NoInner? || (txType == "appl" && raw.inner.InnerArray?))
  }

  /** parseAssetTransferEnvelope. */
  function ParseEnvelope(raw: RawTx, requireId: bool): Result<Envelope> {
    var shared := ParseShared(raw, requireId);
    if shared.Thrown? || shared.value.txType != "axfer" || !raw.transfer.Present? then Thrown
    else
      var t := raw.transfer.value;
      if !OptionalNonEmpty(t.sender) || !OptionalNonEmpty(t.closeTo) then Thrown
      else if !(t.closeAmount.Absent? || SafeRound(t.closeAmount)) then Thrown
      else if t.closeTo.Absent? && t.closeAmount.Present? && t.closeAmount.value != 0 then Thrown
      else if !NonEmpty(t.receiver) || !SafeRound(t.asset) || !SafeRound(t.amount) then Thrown
      else Ok(Envelope(shared.value, t.receiver.value, t.asset.value, Decimal(t.amount.value),
                       OptionOf(t.sender), OptionOf(t.closeTo)))
  }

  /** Neither a clawback nor a close-out. */
  predicate Direct(e: Envelope) {
    e.assetSender.None? && e.closeTo.None?
  }

  function TransferOf(e: Envelope): Transfer
    requires e.common.tx.Some?
  {
    Transfer(e.common.tx.value, e.common.sender, e.receiver, e.asset, e.amount,
             e.common.round, e.common.roundTime, e.common.note)
  }

  lemma EnvelopeHasId(raw: RawTx)
    requires ParseEnvelope(raw, true).Ok?
    ensures ParseEnvelope(raw, true).value.common.tx.Some?
  {
  }

  /** The payment a raw transaction evidences, when it is a direct transfer. */
  function DirectTransfer(raw: RawTx): Option<Transfer> {
    var e := ParseEnvelope(raw, true);
    if e.Ok? && Direct(e.value) then EnvelopeHasId(raw); Some(TransferOf(e.value)) else None
  }

  // ---- Query plan and request --------------------------------------------------------------

  datatype Plan = Plan(address: string, byReceiver: bool, exactAmount: bool, notePrefix: bool)

  function BuildPlan(spec: Spec, variant: Variant): Result<Plan> {
    var exact := variant != A;
    if exact && (!IsNumber(spec.amount) || Number(spec.amount) == 0) then Thrown
    else Ok(Plan(if variant == D then spec.receiver else spec.sender, variant == D, exact,
                 (variant == C || variant == D) && spec.note.Some?))
  }

  /** Everything the request URL says: two requests are the same exactly when these agree. */
  datatype Query = Query(
    asset: nat,
    address: string,
    byReceiver: bool,
    amountBetween: Option<(int, int)>,
    notePrefix: Option<Bytes>,
    minRound: nat,
    maxRound: nat)

  datatype Key = Key(query: Query, token: Option<string>)

  /** buildWatchSearchUrl without the continuation token. */
  function BuildQuery(spec: Spec, variant: Variant, minRound: nat, maxRound: nat): Result<Query> {
    var plan := BuildPlan(spec, variant);
    if minRound > maxRound || maxRound > MAX_SAFE_INTEGER || plan.Thrown? then Thrown
    else
      var p := plan.value;
      Ok(Query(spec.asset, p.address, p.byReceiver,
               if p.exactAmount then Some((Number(spec.amount) as int - 1, Number(spec.amount) + 1)) else None,
               if p.notePrefix then spec.note else None,
               minRound, maxRound))
  }

  /** An empty continuation token is not sent. */
  function TokenSent(token: Option<string>): Option<string> {
    if Truthy(token) then token else None
  }

  // ---- Validation of a page ----------------------------------------------------------------

  predicate HasPrefix(note: Option<Bytes>, prefix: Bytes) {
    note.Some? && prefix <= note.value
  }

  predicate NotePrefixHolds(note: Option<Bytes>, spec: Spec, plan: Plan) {
    plan.notePrefix ==> spec.note.Some? && HasPrefix(note, spec.note.value)
  }

  /** satisfiesScanFilters: the client-side restatement of the server filters. */
  predicate Satisfies(e: Envelope, spec: Spec, plan: Plan) {
    && e.asset == spec.asset
    && (if plan.byReceiver then e.receiver == plan.address
        else e.common.sender == plan.address || e.assetSender == Some(plan.address))
    && (plan.exactAmount ==> e.amount == spec.amount)
    && NotePrefixHolds(e.common.note, spec, plan)
  }

  predicate InRange(round: nat, minRound: nat, maxRound: nat) {
    minRound <= round <= maxRound
  }

  /**
   inspectInnerTransaction: whether some asset transfer in the tree satisfies the filters, with the
   count of nodes visited so far; every node is validated, even after a match.
   */
  function Inspect(raw: RawTx, minRound: nat, maxRound: nat, spec: Spec, plan: Plan,
                   depth: nat, visited: nat): Result<(bool, nat)>
    decreases raw, 0
  {
    if depth > MAX_INNER_DEPTH || visited + 1 > MAX_INNER_ITEMS then Thrown
    else
      var shared := ParseShared(raw, false);
      if shared.Thrown? || !ShapeHolds(raw, shared.value.txType) then Thrown
      else if !InRange(shared.value.round, minRound, maxRound) then Thrown
      else if shared.value.txType == "axfer" then
        var e := ParseEnvelope(raw, false);
        if e.Thrown? then Thrown else Ok((Satisfies(e.value, spec, plan), visited + 1))
      else if raw.inner.InnerArray? then
        InspectAll(raw.inner.children, minRound, maxRound, spec, plan, depth + 1, visited + 1)
      else Ok((false, visited + 1))
  }

  function InspectAll(raws: seq<RawTx>, minRound: nat, maxRound: nat, spec: Spec, plan: Plan,
                      depth: nat, visited: nat): Result<(bool, nat)>
    decreases raws, |raws|
  {
    if raws == [] then Ok((false, visited))
    else
      var first := Inspect(raws[0], minRound, maxRound, spec, plan, depth, visited);
      if first.Thrown? then Thrown
      else
        var rest := InspectAll(raws[1..], minRound, maxRound, spec, plan, depth, first.value.1);
        if rest.Thrown? then Thrown else Ok((first.value.0 || rest.value.0, rest.value.1))
  }

  /** parseWatchTransaction: a validated direct transfer, or validated evidence to ignore. */
  function ParseItem(raw: RawTx, minRound: nat, maxRound: nat, spec: Spec, plan: Plan): Result<Option<Transfer>> {
    var shared := ParseShared(raw, true);
    if shared.Thrown? || !ShapeHolds(raw, shared.value.txType) then Thrown
    else if !InRange(shared.value.round, minRound, maxRound) then Thrown
    else if shared.value.txType != "axfer" then
      if !raw.inner.InnerArray? || raw.inner.children == [] || |raw.inner.children| > MAX_INNER_ITEMS then Thrown
      else
        var found := InspectAll(raw.inner.children, minRound, maxRound, spec, plan, 1, 0);
        if found.Thrown? || !found.value.0 then Thrown else Ok(None)
    else
      var e := ParseEnvelope(raw, true);
      if e.Thrown? || !Satisfies(e.value, spec, plan) then Thrown
      else Ok(DirectTransfer(raw))
  }

  function ParseItems(raws: seq<RawTx>, minRound: nat, maxRound: nat, spec: Spec, plan: Plan): Result<seq<Transfer>> {
    if raws == [] then Ok([])
    else
      var first := ParseItem(raws[0], minRound, maxRound, spec, plan);
      var rest := ParseItems(raws[1..], minRound, maxRound, spec, plan);
      if first.Thrown? || rest.Thrown? then Thrown
      else Ok((if first.value.Some? then [first.value.value] else []) + rest.value)
  }

  /** searchWatchPage on one response body. */
  function ParsePage(raw: RawPage, minRound: nat, maxRound: nat, spec: Spec, variant: Variant): Result<Page> {
    var plan := BuildPlan(spec, variant);
    if plan.Thrown? || |raw.items| > MAX_PAGE_ITEMS || !SafeRound(raw.currentRound) then Thrown
    else
      var items := ParseItems(raw.items, minRound, maxRound, spec, plan.value);
      if items.Thrown? then Thrown
      else Ok(Page(items.value, raw.currentRound.value, TokenSent(raw.next)))
  }

  // ---- The payment contract ----------------------------------------------------------------

  /** matchesWatch. */
  predicate Matches(t: Transfer, w: Row) {
    && w.activationRound.Some? && w.activationRound.value < t.round
    && t.sender == w.spec.sender && t.receiver == w.spec.receiver
    && t.asset == w.spec.asset && t.amount == w.spec.amount
    && w.expiresAt.Some? && t.roundTime * 1000 < w.expiresAt.value
    && (w.spec.note.Some? ==> t.note == w.spec.note)
  }
}

# RoundWatch verification

A Dafny model of the RoundWatch server, with proofs. RoundWatch sells a watch over the Algorand chain:
after the service payment confirms, it scans round windows through a paged Indexer until the watched
payment is found (`matched`) or shown never to have happened (`expired`). The hard promise is that
`expired` is a proof of absence and not a timeout, and that a settlement is rejected for good only when
it cannot have been paid, whatever crashes, overlapping sweeps, shared pages and stale reads intervene.

`dafny verify dfyconfig.toml` checks everything.

## How the model is built

**The watch lifecycle.** `Watches` holds the durable row and every SQL statement as one atomic conditional
update; `WatchLaws` proves what any run of statements keeps; `WatchStore` is the store class, one method per
statement, each proved to be that statement. `ScanQueries`, `ScanLaws`, `InnerTransactions`, `TransactionIds`
and `Numerals` are the Indexer client's pure layer. `Chain` states the confirmed chain and an honest paged
Indexer. `Lifecycle` is the machine: poller, reconciler and settlement hooks, split at every await; segments
of different turns and sweeps interleave freely, and a crash drops everything but the rows. `RowSoundness`
and `LifecycleSafety` give the inductive invariant, `PollingSafety` and `ReconcilingSafety` prove that every
segment keeps it, `LifecycleTheorems` draws the conclusions over every run, `LifecycleStatements` shows that
the machine changes the table by statements only, and `LifecycleMetering` counts requests. `WorkerProcess` is
the poller and reconciler as an object with mutable sessions and turns over the store class and the LRU
`PageCache`. It records its history, is proved to be where the machine is after that history, evictions
included, and so inherits the theorems as lemmas about its own store. `WorkBudget` is the per-turn budget and
the published request ceiling.

**What a turn does, said a second time.** The safety theorems say what never happens; these modules say what does,
in terms that use none of the machine's own functions. `Payments` states the payment contract and the page filters on
the raw fields of a response, and `Verdicts` carries it to the rows of every run. `Purchases` gives each outcome of a
purchase its condition on the table, and `LifecyclePurchases` traces every row of a run to the purchase that sold it.
`Backoff` says what failures and deferrals do to later turns. `PollingTurns` and `PollingService` state one
undisturbed polling turn end to end, `ReconcilingTurns` and `ReconcilingService` one reconciliation turn,
`SettlementHooks` the settlement hook. From these, `Decisions` and `Settlements` prove bounded liveness: after the
deadline, or past the validity window, turns that get answers decide the watch within a stated number of turns, and
decide it rightly.

**Shutdown.** `Lifetimes` says what a fenced owner of work promises and that the promise is exactly its life.
`PollerOwnership`, `ReconcilerOwnership` and `FacilitatorOwnership` model each owner's own counter, flags and
drain resolver, `ServerClose` the server's close promise; they, the application lifetime, `HealthProbe` and
`Dispatcher` are each proved to live as such an owner. `Shutdown` is the coordinator over these very objects.

**Independent cores.** `Pacing` and `Dispatcher` (re-entrant token bucket, FIFO queue and concurrency gate with a
terminal drain), `HealthProbe` and `PaidReadiness` (live evidence for paid admission), `IndexSql`, `IndexParser`,
`IndexPredicate`, `IndexCoverage`, `IndexAcceptance`, `JsonText`, `StringOrder` and `Multisets` (from the text of
the partial-index definition to the rows it holds), with `IndexLexicon` and `IndexGrammar` stating the lexer position
by position and the parser as a grammar of phrases.

## Assumptions

- Block times never decrease. A scan response whose current round covers the requested window is one page of a
  fixed, token-chained partition of what the query selects; a response that does not cover it may say anything.
  A lookup or transaction search reports only the confirmed transfer (`Chain.Honest`;
  `HonestWorlds.HonestWorldExists` shows that the assumptions can be met).
- A transaction confirms only inside its signed validity window (`Lifecycle.IntentSound`).
- The checkpoint's block response is the block that was asked for.
- Node runs a server's close callback only once the listener is gone and the last socket has ended.

## What the proofs found

- Per-payer capacity is not kept when settlement evidence gives an open, so far payer-less row to a payer at
  the limit (`WatchLaws.PayerLimitFails` is such a run from an empty table); `WatchLaws.PayerLimitKeptExactly`
  says that this is the only way.
- Two watches whose amounts are numerically equal but spelled differently share a query key and then disagree
  about the shared page (`ScanLaws.SharingFailsForLeadingZero`); `ScanLaws.SharingNeedsAmountText` gives the exact
  condition, and `ScanLaws.AdmittedAmountsAgree` shows that admitted specifications meet it.
- The activation hook and the reconciler can record different service payers
  (`LifecycleTheorems.PathsDifferOnlyInPayer`).
- Requests can start faster than one burst plus what the elapsed time earned, on a clock that never goes back:
  tokens are earned up to the refill's reading, and the requests they admit start at later readings, so the time
  in between pays twice (`Dispatcher.LateStart` is such a run for every rate and lag;
  with rate 1 and a lag of 1000 two requests start at the same instant under a burst of 1). The bound holds exactly
  when no start lags behind its refill (`Pacing.PromisedExactlyWithoutLag`), and never fails by more than one
  further burst (`Pacing.StartsWithinTwoBursts`).
- A dispatcher clock that dispatches from inside the start loop's read always breaks a gate; at its other reads it
  may (`Dispatcher.IndexerRequestDispatcher.ClockReadMustNotDispatch`).
- A timer whose cancellation runs its callback lets the store close after the process was told to terminate,
  because the completed flag is read before the timer is cleared (`Shutdown.TerminatesAndCloses`). Nothing else
  does (`Shutdown.ShutdownCoordinator.BothOnlyWhenClearingFires`), so it takes an injected timer: Node's never
  run a callback when cleared.

## Model

| member | source | states |
|---|---|---|
| `WatchLaws.UpdateEvolves` | apps/server/roundwatch-store.ts:602-1123 | Every UPDATE keeps a row well formed and turns it into a possible future of itself: identity fixed, facts written once, cursor and usage monotone, a closed row frozen. |
| `WatchLaws.ApplyKeeps` | apps/server/roundwatch-store.ts:602-1123 | The same for the whole table, unique indexes included, under every statement. |
| `WatchLaws.RunKeeps` | apps/server/roundwatch-store.ts:602-1123 | matched, expired, indeterminate and terminally rejected are absorbing, and nothing is rewritten, over any run of statements. |
| `WatchLaws.OpenObligationsBounded` | apps/server/roundwatch-store.ts:683-689 | No run has more open obligations than it started with or the global limit allows. |
| `WatchLaws.PayerLimitKeptExactly` | apps/server/roundwatch-store.ts:691-697 | A statement keeps a payer's limit if and only if it does not hand an open payer-less row to a payer already at the limit. |
| `WatchLaws.PayerLimitFails` | apps/server/roundwatch-store.ts:602-646 | A run of three statements from the empty table leaves a payer with two open watches where one is allowed. |
| `WatchLaws.PayerLimitHolds` | apps/server/roundwatch-store.ts:691-697 | When every purchase names its payer, no run exceeds any payer's limit. |
| `WatchLaws.PurchaseIsIdempotent` | apps/server/roundwatch-store.ts:656-681 | Once a payer owns a watch under a key, any later purchase by that payer under that key, after any run, creates and changes nothing: it gets that watch back, or a conflict if the specification differs. |
| `WatchLaws.LegacyRowReservesKey` | apps/server/roundwatch-store.ts:1508-1529 | A payer-less row answers a payer's purchase with a reservation error exactly when that payer has no row of their own under the key. |
| `WatchLaws.ServicePaymentBacksOneWatch` | apps/server/roundwatch-store.ts:1354 | A service transaction that ever backed one watch never backs another, over any run. |
| `WatchLaws.StaleChargeChangesNothing` | apps/server/roundwatch-store.ts:851-876 | A claim whose plan no longer holds leaves the table untouched. |
| `WatchLaws.ChargeAdmitted` | apps/server/roundwatch-store.ts:847-898 | A claim never collides with a unique index, so its effect is never rolled back. |
| `WatchLaws.ChargeCounts` | apps/server/roundwatch-store.ts:866-881 | A due claim on a watch that stays open uses exactly one unit, whatever else runs, and usage never falls. |
| `WatchLaws.BudgetCloses` | apps/server/roundwatch-store.ts:847-898 | Budget minus usage is a termination measure: one more due claim than it allows leaves the watch closed, whatever statements come in between. |
| `Backoff.FailureDefers` | apps/server/roundwatch-store.ts:900-975 | A transient failure of an active watch is counted and, over any run that neither records nor clears another one, no polling turn is charged before its retry time; from then on exactly a turn whose snapshot knows of the failure is due. |
| `Backoff.PermanentFailureCloses` | apps/server/roundwatch-store.ts:935-975 | A permanent failure closes an active watch as indeterminate over any run, with its reason and failure and without a retry time. |
| `Backoff.DeferralDefers` | apps/server/roundwatch-store.ts:1115-1123 | A deferral counts one attempt and sets the next due time and nothing else; over any run without another one, no reconciliation turn is charged before that time or from an older snapshot. |
| `Purchases.ObligationsCounted` | apps/server/roundwatch-store.ts:683-697 | What counts against the limits, by the columns: pending, active, or unknown and not rejected for good; the payer is the one expected at the purchase or else the one whose settlement activated it. |
| `Purchases.OutcomeExactly` | apps/server/roundwatch-store.ts:648-763 | Each of the seven outcomes of a purchase happens if and only if its own condition on the table holds, and a created row is, column by column, what was sold. |
| `LifecyclePurchases.RowComesFromPurchase` | apps/server/roundwatch-store.ts:699-750 | However a run of the machine went, each row comes from one purchase in it and still carries its key, specification, terms, configured budget and a deadline that is its creation plus the configured lifetime. |
| `LifecycleStatements.WatchClosesWithinBudget` | apps/server/roundwatch-poller.ts:472-500 | However turns, crashes and clients interleave, one more due turn than the configured budget leaves the watch closed. |
| `WatchStore.RoundWatchStore.FindIdempotencyRow` | apps/server/roundwatch-store.ts:1508-1529 | The payer's own row first, then a payer-less one; unique whenever it exists. |
| `WatchStore.RoundWatchStore.PrepareWatch` | apps/server/roundwatch-store.ts:648-763 | Replay, reservation, conflict, either capacity error, unique violation or insertion, in the source's order; an insertion adds one row whose every column is what was sold, its deadline the creation plus the configured lifetime; everything else leaves the table as it was. |
| `WatchStore.RoundWatchStore.RecordSettlementCandidate` | apps/server/roundwatch-store.ts:602-646 | Fills in missing expected facts once; succeeds exactly when the evidence fits and the row is waiting or already settled by it. |
| `WatchStore.RoundWatchStore.ActivateWatch` | apps/server/roundwatch-store.ts:765-824 | Activates a waiting row; succeeds exactly when the evidence fits and the row is waiting and not rejected, or was settled by it already. |
| `WatchStore.RoundWatchStore.MarkSettlementUnknown` | apps/server/roundwatch-store.ts:826-834 | Only a pending row becomes unknown. |
| `WatchStore.RoundWatchStore.MarkSettlementInvalid` | apps/server/roundwatch-store.ts:836-845 | Only an unsettled row is rejected for good. |
| `WatchStore.RoundWatchStore.ClaimWorkUnit` | apps/server/roundwatch-store.ts:847-898 | Charges, exhausts or refuses by the row as it is now; a charge changes usage alone and a refusal nothing. |
| `WatchStore.RoundWatchStore.RecordPollingFailure` | apps/server/roundwatch-store.ts:900-975 | Rejects malformed failures; a permanent one closes an active row, others defer it. |
| `WatchStore.RoundWatchStore.ClearPollingFailure` | apps/server/roundwatch-store.ts:977-989 | Clears an active row's failure and nothing else. |
| `WatchStore.RoundWatchStore.MarkMatched` | apps/server/roundwatch-store.ts:991-1007 | Only an active row is matched; the row is returned as it then stands. |
| `WatchStore.RoundWatchStore.AdvanceScanRound` | apps/server/roundwatch-store.ts:1009-1016 | Moves the cursor forward from the expected round; says true exactly when the table changed. |
| `WatchStore.RoundWatchStore.SetClosingRound` | apps/server/roundwatch-store.ts:1101-1105 | The first closing round stays; the answer is the round now stored. |
| `WatchStore.RoundWatchStore.MarkExpired` | apps/server/roundwatch-store.ts:1107-1113 | Expires an active row whose cursor and closing round are the expected ones and have met; says true exactly when the table changed. |
| `WatchStore.RoundWatchStore.RecordReconciliationFailure` | apps/server/roundwatch-store.ts:1115-1123 | Defers an unsettled row that is not rejected. |
| `WatchStore.RoundWatchStore.RepairWorkBudgets` | apps/server/roundwatch-store.ts:571-596 | Fills in missing budgets of open rows only. |
| `WatchStore.UpdateAdmitted` | apps/server/roundwatch-store.ts:826-1123 | Statements that leave the unique columns alone are never rolled back. |
| `ScanLaws.SharingIsTransparent` | apps/server/roundwatch-indexer.ts:288-300 | Two watches with the same query key and the same amount text get the same parse result for every response body. |
| `ScanLaws.SharingNeedsAmountText` | apps/server/roundwatch-indexer.ts:416-457 | An asset transfer that validates for one watch validates for another with the same query key if and only if their amount texts are equal, whenever the plan filters by amount. |
| `ScanLaws.SharingFailsForLeadingZero` | apps/server/roundwatch-indexer.ts:288-300 | Watches for "1" and "01" make the same request, and the same body is accepted for one and refused for the other. |
| `ScanLaws.AdmittedAmountsAgree` | apps/server/roundwatch-indexer.ts:906-935 | Canonical amounts with one query key are the same text, so admitted watches share safely. |
| `ScanLaws.PageContent` | apps/server/roundwatch-indexer.ts:302-414 | A page that validates holds exactly the direct transfers of the body, in order, whoever asked for it. |
| `Payments.PageDeliversPayments` | apps/server/roundwatch-indexer.ts:937-1023 | Over the raw fields: a validated page delivers, in order and field for field, exactly the asset transfers of the body that name neither an asset sender nor a close-out address. |
| `Payments.TransferAccepted` | apps/server/roundwatch-indexer.ts:1088-1190 | An asset transfer is accepted if and only if every field is there and in range, its round lies in the window, and it has what the query variant wants of asset, address, amount and note. |
| `Payments.CallAccepted` | apps/server/roundwatch-indexer.ts:953-1003 | Over the raw fields of the whole tree: anything but an asset transfer is accepted if and only if it is a well-formed application call with at most 1000 inner transactions, 16 deep, all well formed and in the window, one of which the variant wants; it delivers no payment. |
| `Payments.QuerySays` | apps/server/roundwatch-indexer.ts:416-457 | A request can be built exactly for a safe, ordered window and a plan, and says what the variant filters by: whose address, the amount as open bounds on either side, the note prefix, the rounds. |
| `Payments.PageAccepted` | apps/server/roundwatch-indexer.ts:302-414 | A page validates if and only if the scan can be planned, it has at most 1000 items and a safe current round, and each single item is accepted. |
| `Payments.ContractOnFields` | apps/server/roundwatch-indexer.ts:1216-1228 | A transaction as sent pays for a watch, field by field, exactly when it parses to a direct transfer that matchesWatch accepts; a watch without a note takes any note. |
| `ScanLaws.AcceptsWhatItAsked` | apps/server/roundwatch-indexer.ts:1003-1174 | Client-side validation accepts a top-level asset transfer exactly when the provider's filters select it. |
| `ScanLaws.NoVariantLosesPayment` | apps/server/roundwatch-indexer.ts:906-935 | Whatever matchesWatch accepts passes the address, amount and note filters of all four query variants. |
| `ScanLaws.EveryVariantFindsTheSame` | apps/server/roundwatch-indexer.ts:1216-1228 | Over windows of asset transfers and of application calls with inner transactions, scanning under variant A, B, C or D finds the same matches in the same order. |
| `ScanLaws.ParentParses` | apps/server/roundwatch-indexer.ts:960-1003 | A well-formed application call is accepted exactly when the provider returned it for a transfer inside it, and yields no payment. |
| `ScanLaws.InspectionExact` | apps/server/roundwatch-indexer.ts:1025-1086 | Inspection succeeds exactly on well-formed trees within 1000 nodes and depth 16, and then says exactly whether some asset transfer in the tree meets the filters. |
| `InnerTransactions.Traversal.InspectInner` | apps/server/roundwatch-indexer.ts:1025-1086 | The loop with its shared counter computes that inspection and visits every node, even after a match. |
| `Numerals.PrintValue` | apps/server/economics-benchmark.ts:764-766 | Printing a number in a base and reading the digits gives it back, with no leading zero. |
| `Numerals.NumberDecimal` | apps/server/roundwatch-indexer.ts:416-457 | The decimal text of an amount reads back as that amount and is canonical. |
| `TransactionIds.EncoderIsRfc4648` | apps/server/economics-benchmark.ts:760-770 | Shifting the digest by four bits and printing it in base 32 is the unpadded Base32 of RFC 4648, section 6, for every 32-byte digest. |
| `TransactionIds.EncodeAccepted` | apps/server/roundwatch-indexer.ts:1285-1302 | Every encoded digest is accepted. |
| `TransactionIds.AcceptedEncoded` | apps/server/roundwatch-indexer.ts:1285-1302 | Every accepted text is the encoding of the digest it decodes to, with zero pad bits as section 3.5 of RFC 4648 requires. |
| `TransactionIds.AcceptsExactlyEncodings` | apps/server/roundwatch-indexer.ts:1285-1302 | The decoder-free test accepts exactly the canonical encodings of 256-bit values. |
| `TransactionIds.EncoderInjective` | apps/server/economics-benchmark.ts:760-770 | Different digests have different identifiers. |
| `Chain.SelectedIsListed` | apps/server/roundwatch-indexer.ts:416-457 | A confirmed payment inside a window is on some page of that window's query. |
| `Chain.WindowCovers` | apps/server/roundwatch-poller.ts:588-611 | If no page of a window that starts where coverage ends holds a match, coverage extends to the window's end. |
| `Chain.CheckpointProvesAbsence` | apps/server/roundwatch-poller.ts:525-545 | Coverage through a block whose time is at or past the deadline rules out a payment at any round, past or future. |
| `Chain.FirstIsEarliest` | apps/server/roundwatch-poller.ts:579-596 | With pages in round order, the first delivered match is in the earliest round that has one. |
| `HonestWorlds.HonestWorldExists` | apps/server/roundwatch-indexer.ts:302-414 | For any direct transfer there is a chain and an Indexer that meet all assumptions and confirm it. |
| `RowSoundness.UpdateSound` | apps/server/roundwatch-store.ts:602-1123 | A statement issued with its evidence keeps what the row means about the chain. |
| `LifecycleSafety.StoreKeeps` | apps/server/roundwatch-store.ts:602-1123 | It also keeps the evidence every session, turn, snapshot and cached page carries. |
| `PollingSafety.BeginPollKeeps` | apps/server/roundwatch-poller.ts:472-545 | Claiming and starting a turn from a possibly stale snapshot keeps the invariant. |
| `PollingSafety.BlockKeeps` | apps/server/roundwatch-poller.ts:525-546 | A closing round is fixed only at a block at or past the deadline. |
| `PollingSafety.SweepTipKeeps` | apps/server/roundwatch-poller.ts:553-567 | A new window starts where coverage ends. |
| `PollingSafety.MatchJustified` | apps/server/roundwatch-poller.ts:579-596 | The transfer recorded as the match is confirmed, meets the contract, and is the first one delivered in its window, with everything before the window covered. |
| `PollingSafety.OnlyNewTokens` | apps/server/roundwatch-poller.ts:598-604 | A continuation token passes the repeat check only when it names the page right after those consumed. |
| `PollingSafety.WindowJustified` | apps/server/roundwatch-poller.ts:609-611 | The last page without a match means that the whole window is covered. |
| `PollingSafety.ConsumeKeeps` | apps/server/roundwatch-poller.ts:569-625 | Every outcome of a page keeps the invariant. |
| `PollingSafety.ParsedPageSound` | apps/server/roundwatch-indexer.ts:302-414 | A validated honest body is one page of the partition. |
| `ReconcilingSafety.ApplyConfirmedKeeps` | apps/server/roundwatch-reconciler.ts:439-466 | Activation and rejection after a confirmed transfer are both justified. |
| `ReconcilingSafety.NextProofSound` | apps/server/roundwatch-reconciler.ts:405-419 | While coverage reaches past the validity window, an absence session has consumed exactly the first pages of the search. |
| `ReconcilingSafety.AbsenceProved` | apps/server/roundwatch-reconciler.ts:421-436 | An empty last page with minimum coverage past the validity window proves that nothing was ever confirmed. |
| `ReconcilingSafety.AbsenceKeeps` | apps/server/roundwatch-reconciler.ts:383-436 | Every outcome of a search page keeps the invariant, sessions shared by turns included. |
| `ReconcilingSafety.SettledKeeps` | apps/server/app.ts:499-533 | An accepted candidate agrees with the purchase terms. |
| `ReconcilingSafety.ActivationKeeps` | apps/server/app.ts:544-584 | Activation and rejection by the hook are both justified. |
| `LifecycleTheorems.StepKeeps` | apps/server/roundwatch-poller.ts:253-625 | Every event of the machine, crashes included, keeps the whole invariant. |
| `LifecycleTheorems.ExpiredMeansUnpaid` | apps/server/roundwatch-poller.ts:472-625 | In every reachable state, an expired watch has no payment that meets its contract anywhere on the chain, past or future. |
| `LifecycleTheorems.PaidNeverExpires` | apps/server/roundwatch-poller.ts:472-625 | A watch whose payment is confirmed is never expired by any run. |
| `LifecycleTheorems.MatchedMeansPaid` | apps/server/roundwatch-poller.ts:579-596 | In every reachable state, a matched watch names a confirmed payment that meets its whole contract, and no eligible one was delivered before it. |
| `LifecycleTheorems.MatchedIsEarliest` | apps/server/roundwatch-poller.ts:579-596 | With pages in round order, no eligible payment is in an earlier round. |
| `Verdicts.MatchedNamesPayment` | apps/server/roundwatch-poller.ts:579-597 | In every run, a matched row names by id and round a transaction of the chain whose own fields meet the whole contract. |
| `Verdicts.ExpiredHasNoPayment` | apps/server/roundwatch-poller.ts:542-546 | In every run, no transaction in any block has fields that meet the contract of an expired row. |
| `LifecycleTheorems.GoodSettlementNeverRejected` | apps/server/roundwatch-reconciler.ts:340-466 | If the purchase transaction is confirmed on the configured network and meets the terms, no run rejects the settlement for good. |
| `LifecycleTheorems.ActivationIsDetermined` | apps/server/roundwatch-store.ts:765-824 | A watch sold with terms is active only by the transaction those terms name, from the round that holds it, inside the validity window. |
| `LifecycleTheorems.RecoveryIsConfluent` | apps/server/roundwatch-reconciler.ts:439-466 | Any two continuations of one history, with or without crashes, by hook or by reconciler, that end activated agree on transaction, network, activation round and the round scanning first started from. |
| `LifecycleStatements.ScanStartsAtActivation` | apps/server/roundwatch-store.ts:796-818 | Over any run, the scan cursor of a watch starts at its activation round, which never changes. |
| `LifecycleTheorems.PathsDifferOnlyInPayer` | apps/server/app.ts:514-576 | The two activation paths leave the same row up to the noted payer, and exactly the same row when the facilitator reported the sender. |
| `LifecycleTheorems.SharedPageDecidesTheSame` | apps/server/roundwatch-poller.ts:300-348 | A turn that takes a cached or shared page ends in the same state as if it had fetched the page itself, and that fetch would have succeeded. |
| `LifecycleTheorems.SharingIsInvisible` | apps/server/roundwatch-poller.ts:300-348 | Over whole runs, fetching every shared page again from the body it came from ends in the same state. |
| `LifecycleTheorems.RestartKeepsRows` | apps/server/roundwatch-store.ts:571-596 | A restart keeps every row, fills in only missing budgets of open ones, and drops all other work. |
| `PollingTurns.BlockFixes` | apps/server/roundwatch-poller.ts:535-540 | With the checkpoint block at or past the deadline, in milliseconds, the row's closing round is that block's, and the turn goes on with it. |
| `PollingTurns.BlockTooEarly` | apps/server/roundwatch-poller.ts:535-540 | With the checkpoint block before the deadline nothing is fixed, and the turn goes on. |
| `PollingTurns.CheckpointPassed` | apps/server/roundwatch-poller.ts:542-567 | After the checkpoint the watch expires at once if its closing round is covered, else the turn asks for its session's next page, or for the tip without a session that still fits. |
| `PollingTurns.PrunedExactly` | apps/server/roundwatch-poller.ts:234-255 | A session is dropped exactly when its window no longer fits the row as it is now. |
| `PollingTurns.WindowOpens` | apps/server/roundwatch-poller.ts:553-567 | A new window starts after the cursor and ends at the window size, the tip or the closing round, whichever is first; its first page is asked for without a token. |
| `PollingTurns.BodyShared` | apps/server/roundwatch-poller.ts:318-348 | A validated body is shared with the rest of its sweep, and cached for later ones exactly when the cache keeps it and its current round covers the window, whatever the turn makes of it. |
| `PollingTurns.PageMatches` | apps/server/roundwatch-poller.ts:591-597 | A page with a payment matches the watch with the first transaction whose fields pay for it, and ends the session. |
| `PollingTurns.PageContinues` | apps/server/roundwatch-poller.ts:598-608 | Without a payment every page but the last moves the session on by exactly one page and leaves the rows alone. |
| `PollingTurns.RepeatFails` | apps/server/roundwatch-poller.ts:598-601 | Whoever sends it, a continuation that the session was at or has seen fails the turn and moves nothing. |
| `PollingTurns.PageCompletes` | apps/server/roundwatch-poller.ts:609-625 | Without a payment the last page moves the cursor to the window's end and expires the watch exactly when that is its closing round. |
| `PollingService.TurnServes` | apps/server/roundwatch-poller.ts:472-625 | One undisturbed polling turn from listing to pruning: the row afterwards is given by the clocks, rounds and fields it met alone, closing round if and only if the deadline has passed on the clock and in the block; a turn that got a page clears the failures before it; the session is kept exactly between two pages. |
| `PollingService.LastTurnExpires` | apps/server/roundwatch-poller.ts:525-623 | With the deadline past on the clock and in the checkpoint block, a window that reaches that block and a last page without a payment, one turn fixes the closing round, moves the cursor to it and expires the watch. |
| `PollingService.BadPageFails` | apps/server/roundwatch-poller.ts:588-590 | A body that does not validate or was reported too early for its window changes nothing and fails the turn. |
| `PollingService.TurnFails` | apps/server/roundwatch-poller.ts:365-398 | A failure is recorded on the row as it is now, and drops the watch's session and every cached page. |
| `PollingService.InterruptEnds` | apps/server/roundwatch-poller.ts:365-366 | A turn interrupted by shutdown is over, and nothing is recorded for it. |
| `PollingService.TurnRefused` | apps/server/roundwatch-poller.ts:489-513 | A turn whose snapshot no longer holds, or that is not due, charges nothing and does nothing, and keeps the session exactly if it still fits. |
| `PollingService.TurnExhausts` | apps/server/roundwatch-poller.ts:495-503 | With the budget spent the watch is closed as indeterminate and its session dropped. |
| `PollingService.FailureCleared` | apps/server/roundwatch-store.ts:977-989 | Clearing a failure makes an active watch due at once and changes nothing else. |
| `Decisions.DecidedRightlyInTime` | apps/server/roundwatch-poller.ts:472-625 | From any state of the machine: past the deadline, undisturbed turns that get answers close an active watch within as many turns as rounds times pages are left, matched if and only if some transaction on the chain pays for it, else expired. |
| `ReconcilingTurns.RoundOpensSearch` | apps/server/roundwatch-reconciler.ts:370-390 | Past the last valid round a new search of the watch's own transaction begins, and its first page is asked for without a token. |
| `ReconcilingTurns.RoundTooEarly` | apps/server/roundwatch-reconciler.ts:370-373 | At or before the last valid round the watch has one more attempt and the next due time, and no search. |
| `ReconcilingTurns.TransferActivates` | apps/server/roundwatch-reconciler.ts:439-466 | A confirmed transfer that is what was agreed, and that no other watch has, activates the watch from its round. |
| `ReconcilingTurns.TransferTaken` | apps/server/roundwatch-reconciler.ts:460-464 | If another watch has that payment already, activation fails and the turn waits for its error. |
| `ReconcilingTurns.TransferRejected` | apps/server/roundwatch-reconciler.ts:445-459 | A confirmed transfer that differs in id, network, payer, receiver, asset, amount or window rejects the watch for good. |
| `ReconcilingTurns.PageProves` | apps/server/roundwatch-reconciler.ts:421-436 | An empty last page rejects the watch when every page was reported past the last valid round. |
| `ReconcilingTurns.PageMovesOn` | apps/server/roundwatch-reconciler.ts:405-419 | An empty page with a new continuation defers the watch and moves the search on by that page, coverage included. |
| `ReconcilingTurns.PageFails` | apps/server/roundwatch-reconciler.ts:405-429 | A repeated continuation, or a last page whose search was reported too early, fails the turn. |
| `ReconcilingService.TurnReconciles` | apps/server/roundwatch-reconciler.ts:284-437 | One undisturbed reconciliation turn from listing to pruning: the row afterwards is given by lookup, current round and search page alone. |
| `ReconcilingService.NeverPaidRejected` | apps/server/roundwatch-reconciler.ts:346-436 | Nothing confirmed and a search whose only page is empty and covers the window: past the last valid round the turn rejects the watch for good, at or before it the turn defers it and begins no search. |
| `ReconcilingService.ReconcileRefused` | apps/server/roundwatch-reconciler.ts:310-318 | A turn whose snapshot no longer holds, or that is not due, charges nothing and does nothing, and keeps the search exactly if it is still the watch's own. |
| `ReconcilingService.ReconcileExhausts` | apps/server/roundwatch-reconciler.ts:302-309 | With the budget spent the watch is closed as indeterminate and its search dropped. |
| `ReconcilingService.TermlessDeferred` | apps/server/roundwatch-reconciler.ts:334-338 | A watch sold without terms is charged and deferred, without a request and without a search. |
| `ReconcilingTurns.SearchPrunedExactly` | apps/server/roundwatch-reconciler.ts:263-282 | A search is dropped exactly when the watch no longer waits for the transaction it is for. |
| `Settlements.SettledRightlyInTime` | apps/server/roundwatch-reconciler.ts:284-466 | Past the validity window, undisturbed turns that get the search pages they ask for decide the settlement within as many turns as the search has pages left: active from the confirmed round if and only if the purchase was confirmed as agreed, else rejected for good. |
| `SettlementHooks.HookSettles` | apps/server/app.ts:521-573 | Evidence that fits fills in what the watch lacked, and the lookup decides: nothing found leaves it so, the payment under the terms activates it from its round unless another watch has it, any other transfer rejects it for good. |
| `SettlementHooks.HookRefused` | apps/server/app.ts:527-533 | Evidence that contradicts the watch, or facts of it that another watch holds, changes nothing. |
| `SettlementHooks.PaymentFailed` | apps/server/app.ts:586-603 | A failed settlement makes a pending watch unknown, still open to reconciliation, and nothing else. |
| `LifecycleStatements.StepRows` | apps/server/roundwatch-poller.ts:472-625 | Every step but a purchase changes the table by plain store statements or by exactly one activation, and in no other way. |
| `LifecycleStatements.PrepareRows` | apps/server/roundwatch-store.ts:648-763 | A purchase is one Prepare statement, or nothing. |
| `LifecycleStatements.RunEvolves` | apps/server/roundwatch-store.ts:602-1123 | Over any run of the machine rows only evolve and closed rows stay as they are. |
| `LifecycleStatements.CapacityHolds` | apps/server/roundwatch-store.ts:683-689 | However clients, workers and crashes interleave, open obligations stay within the limit. |
| `LifecycleStatements.PayerCapacityHolds` | apps/server/roundwatch-store.ts:691-697 | When every purchase names its payer, no payer exceeds the limit, however clients, workers and crashes interleave. |
| `LifecycleMetering.StepMetered` | apps/server/roundwatch-work-budget.ts:6-30 | Every request is charged to one claimed unit owned by one turn, and the ledger has one entry per used unit. |
| `LifecycleMetering.RequestsBounded` | apps/server/roundwatch-work-budget.ts:32-48 | Over any run a watch causes at most four background requests per budgeted unit. |
| `LifecycleMetering.TurnLimitUnreachable` | apps/server/roundwatch-work-budget.ts:18-27 | The per-turn limit's exception is unreachable in every run. |
| `WorkBudget.IndexerRequestTurnBudget.Run` | apps/server/roundwatch-work-budget.ts:18-27 | A request is charged exactly while the limit is not spent. |
| `WorkBudget.CeilingExactly` | apps/server/roundwatch-work-budget.ts:34-48 | A ceiling is published exactly for a positive budget whose fourfold is a safe integer, and is that fourfold. |
| `WorkBudget.CeilingHolds` | apps/server/roundwatch-work-budget.ts:34-48 | The published ceiling is an upper bound on a watch's background requests in every history. |
| `WorkerProcess.Workers.Request` | apps/server/roundwatch-work-budget.ts:18-27 | The charge before an await is the machine's. |
| `WorkerProcess.Workers.BeginPoll` | apps/server/roundwatch-poller.ts:472-545 | serviceWatch up to its first await is the machine's first polling step. |
| `WorkerProcess.Workers.BlockArrives` | apps/server/roundwatch-poller.ts:525-546 | The checkpoint segment is the machine's. |
| `WorkerProcess.Workers.SweepTipArrives` | apps/server/roundwatch-poller.ts:553-567 | Opening a window is the machine's step. |
| `WorkerProcess.Workers.ConsumePage` | apps/server/roundwatch-poller.ts:576-625 | The segment after a page is the machine's, for any page. |
| `WorkerProcess.Workers.FetchedPageArrives` | apps/server/roundwatch-poller.ts:324-347 | Validation, sharing and caching of a fetched page are the machine's, preceded by the evictions the LRU cache makes for it. |
| `WorkerProcess.Workers.PollFails` | apps/server/roundwatch-poller.ts:365-400 | The sweep's catch block is the machine's. |
| `WorkerProcess.Workers.BeginReconcile` | apps/server/roundwatch-reconciler.ts:284-356 | reconcileWatch up to its first await is the machine's first reconciliation step. |
| `WorkerProcess.Workers.RoundArrives` | apps/server/roundwatch-reconciler.ts:362-381 | Deferring or opening an absence session is the machine's step. |
| `WorkerProcess.Workers.AbsenceArrives` | apps/server/roundwatch-reconciler.ts:383-436 | The segment after a search page is the machine's. |
| `WorkerProcess.Workers.ConfirmTransfer` | apps/server/roundwatch-reconciler.ts:439-466 | applyConfirmed is the machine's. |
| `WorkerProcess.Workers.Settled` | apps/server/app.ts:519-533 | Recording the candidate in the hook is the machine's step. |
| `WorkerProcess.Workers.ActivationLookupArrives` | apps/server/app.ts:544-584 | The hook after its lookup is the machine's step. |
| `WorkerProcess.Workers.Restart` | apps/server/roundwatch-store.ts:571-596 | A restart keeps the rows, repairs budgets and drops everything else, as the machine's crash does. |
| `WorkerProcess.Workers.Deliver` | apps/server/roundwatch-poller.ts:253-411 | Whatever event reaches the process, the machine takes the same step: the object is always where the machine is after the recorded history. |
| `WorkerProcess.Workers.ExpiredRowIsUnpaid` | apps/server/roundwatch-poller.ts:525-545 | An expired row of the object's store has no payment that meets its contract anywhere on the chain. |
| `WorkerProcess.Workers.MatchedRowIsPaid` | apps/server/roundwatch-poller.ts:579-596 | A matched row of the object's store names a confirmed payment that meets its whole contract. |
| `WorkerProcess.Workers.GoodSettlementIsNotRejected` | apps/server/roundwatch-reconciler.ts:340-466 | A row of the object's store whose settlement is confirmed and meets its terms is not rejected for good. |
| `PageCache.TrimKeepsNewest` | apps/server/roundwatch-poller.ts:668-683 | Eviction keeps exactly the longest run of most recently used entries that meets both limits. |
| `PageCache.AcceptedPageSurvives` | apps/server/roundwatch-poller.ts:640-684 | An accepted page survives its own insertion, and both limits hold afterwards. |
| `PageCache.KeptIfItFits` | apps/server/roundwatch-poller.ts:644-666 | A page is kept, as the most recent one, exactly if the cache is on and the page fits the byte budget on its own; otherwise nothing is disturbed. |
| `PageCache.RunWithinLimits` | apps/server/roundwatch-poller.ts:627-689 | After any run of lookups, insertions and clears both limits hold and entries are ordered by last use. |
| `PageCache.HitIsLastAccepted` | apps/server/roundwatch-poller.ts:627-684 | A hit returns the page of the last insertion under that key that was not refused. |
| `PageCache.HistoricalPageCache.GetCachedHistoricalPage` | apps/server/roundwatch-poller.ts:627-638 | A lookup returns the stored page and makes it the most recently used. |
| `PageCache.HistoricalPageCache.CacheHistoricalPage` | apps/server/roundwatch-poller.ts:640-684 | The byte counter stays the sum of the entries; a disabled cache or an oversized page changes nothing. |
| `PageCache.HistoricalPageCache.ClearHistoricalPageCache` | apps/server/roundwatch-poller.ts:686-689 | Nothing is left. |
| `PageCache.PutIsEviction` | apps/server/roundwatch-poller.ts:640-684 | As a table, an accepted insertion drops some other entries and then holds the page. |
| `Pacing.StartsBounded` | apps/server/roundwatch-scheduler.ts:157-261 | Measured by the refills that pay for them, any stretch of starts is at most the burst plus what the time between earned. |
| `Pacing.StartReadingsBounded` | apps/server/roundwatch-scheduler.ts:166-184 | Measured by the readings at which requests start, on a clock that never goes back: the burst, what the time between earned, and what the first start's lag behind its refill earned. |
| `Pacing.StartsWithinTwoBursts` | apps/server/roundwatch-scheduler.ts:157-184 | Whatever the lags, never more than two bursts plus what the time between the starts earned. |
| `Pacing.PromisedExactlyWithoutLag` | apps/server/roundwatch-scheduler.ts:166-184 | One burst plus the earned time bounds every such log if and only if no start lags behind the refill that paid for it. |
| `Pacing.DelayIsLeast` | apps/server/roundwatch-scheduler.ts:235-240 | The armed delay is the least whole number of milliseconds, and at least one, after which a token has been earned. |
| `Pacing.RefillInSteps` | apps/server/roundwatch-scheduler.ts:250-261 | Reading the clock in between changes nothing: two refills earn what one over the whole time earns. |
| `Pacing.IdleBucketFills` | apps/server/roundwatch-scheduler.ts:250-261 | An idle bucket gains all that the clock earns until it holds the burst, and then holds it. |
| `Dispatcher.IndexerRequestDispatcher.ClockReadMustNotDispatch` | apps/server/roundwatch-scheduler.ts:166-184 | After a clock read inside the start loop that leaves the dispatcher open, the loop's guard still holds if and only if the read dispatched nothing. |
| `Dispatcher.IndexerRequestDispatcher.Dispatch` | apps/server/roundwatch-scheduler.ts:97-121 | Refused exactly under the fence; otherwise accepted in order, with nothing left waiting without a reason and nothing left that could start. |
| `Dispatcher.IndexerRequestDispatcher.Pump` | apps/server/roundwatch-scheduler.ts:157-241 | With operations and clock reads that re-enter, and backward clocks, concurrency, pacing, FIFO order and settlement counts are kept, and a request waits only for a full gate or with an empty bucket and a timer for the least delay that earns a token; without re-entry it computes exactly the quiet pump. |
| `Dispatcher.IndexerRequestDispatcher.Refill` | apps/server/roundwatch-scheduler.ts:250-261 | The bucket gains exactly what the clock earned since its high-water mark as it stands after the read, capped by the burst; a backward reading changes nothing. |
| `Dispatcher.IndexerRequestDispatcher.StopScheduling` | apps/server/roundwatch-scheduler.ts:123-134 | What was queued is rejected once, and nothing starts again. |
| `Dispatcher.IndexerRequestDispatcher.Drain` | apps/server/roundwatch-scheduler.ts:136-144 | The drain resolves as soon as nothing is in flight, and only then. |
| `Dispatcher.IndexerRequestDispatcher.Complete` | apps/server/roundwatch-scheduler.ts:194-224 | A started request is answered once, whatever its observer does. |
| `Dispatcher.IndexerRequestDispatcher.Release` | apps/server/roundwatch-scheduler.ts:225-232 | A freed slot finishes the drain or starts what waits. |
| `Dispatcher.IndexerRequestDispatcher.TimerFires` | apps/server/roundwatch-scheduler.ts:235-240 | Any armed timer, also one a nested pump left behind, keeps all of this. |
| `Dispatcher.IndexerRequestDispatcher.AllAnswered` | apps/server/roundwatch-scheduler.ts:123-144 | Under the fence with nothing in flight, every accepted request has been answered exactly once. |
| `Dispatcher.IndexerRequestDispatcher.StartsPacedAndOrdered` | apps/server/roundwatch-scheduler.ts:157-261 | The k-th start is the k-th accepted request, and starts are paid for by their refills, in every valid state. |
| `Dispatcher.IndexerRequestDispatcher.StartTimesBounded` | apps/server/roundwatch-scheduler.ts:157-184 | In every valid state after a clock that never went back: the bounds over start readings, with one burst when the first start does not lag. |
| `Dispatcher.LateStart` | apps/server/roundwatch-scheduler.ts:157-184 | For every rate and every positive lag, a run of the dispatcher with burst one whose two starts come faster than one burst plus the earned time. |
| `Dispatcher.IndexerRequestDispatcher.Happens` | apps/server/roundwatch-scheduler.ts:97-144 | Whatever happens to a dispatcher, it lives as a fenced owner of its queued and dispatched requests. |
| `Lifetimes.DrainedForGood` | apps/server/roundwatch-application-lifetime.ts:14-42 | Once an owner's drain has resolved, no further life of it holds or takes any work. |
| `Lifetimes.LivesExactly` | apps/server/roundwatch-application-lifetime.ts:5-42 | A change of an owner is a sequence of fences, admissions, completions and drains exactly when it stays sound and only winds down behind the fence. |
| `Lifetimes.ApplicationLifetime.Track` | apps/server/roundwatch-application-lifetime.ts:14-30 | Ownership is registered before the operation runs, even one that shuts the lifetime down; refused once stopped. |
| `Lifetimes.ApplicationLifetime.Drain` | apps/server/roundwatch-application-lifetime.ts:32-37 | A drain resolves exactly when nothing is pending. |
| `Lifetimes.ApplicationLifetime.Release` | apps/server/roundwatch-application-lifetime.ts:39-42 | The last release resolves a requested drain. |
| `PollerOwnership.RoundWatchPoller.Tick` | apps/server/roundwatch-poller.ts:711-760 | The wrapper and its sweep are counted separately before either runs; one wrapper at a time, and a started poller always has its wrapper or its timer. |
| `PollerOwnership.RoundWatchPoller.RunOnce` | apps/server/roundwatch-poller.ts:208-232 | A direct sweep is owned before it runs and refused behind the fence. |
| `PollerOwnership.RoundWatchPoller.EndTick` | apps/server/roundwatch-poller.ts:746-759 | The wrapper arms the next timer only while started, and its release may resolve the drain. |
| `PollerOwnership.RoundWatchPoller.DrainedMeansIdle` | apps/server/roundwatch-poller.ts:144-162 | A resolved drain means that no sweep, no wrapper and no timer is left. |
| `PollerOwnership.RoundWatchPoller.Happens` | apps/server/roundwatch-poller.ts:125-162 | Whatever happens to the poller, also from inside a starting sweep, it lives as a fenced owner of its counter. |
| `ReconcilerOwnership.RoundWatchReconciler.Run` | apps/server/roundwatch-reconciler.ts:101-147 | A scheduled run holds a share for the wrapper around the sweep's own, and none starts behind the fence. |
| `ReconcilerOwnership.RoundWatchReconciler.Drain` | apps/server/roundwatch-reconciler.ts:160-175 | The promise is resolved at once when nothing is owned and otherwise by the release that reaches zero. |
| `ReconcilerOwnership.RoundWatchReconciler.DrainedMeansIdle` | apps/server/roundwatch-reconciler.ts:200-208 | A resolved drain means that no sweep and no wrapper is left. |
| `ReconcilerOwnership.RoundWatchReconciler.Happens` | apps/server/roundwatch-reconciler.ts:96-208 | Whatever happens to the reconciler, it lives as a fenced owner of its counter. |
| `FacilitatorOwnership.RoundWatchFacilitator.StopAdmission` | apps/server/roundwatch-facilitator.ts:61-65 | Both flags go up together and every call that waits to retry is cancelled. |
| `FacilitatorOwnership.RoundWatchFacilitator.WaitToRetry` | apps/server/roundwatch-facilitator.ts:194-214 | A wait is registered before its timer is created, so that a fence raised meanwhile cancels it; otherwise the call sleeps with its attempt number, and never after the last attempt. |
| `FacilitatorOwnership.RoundWatchFacilitator.HandleReply` | apps/server/roundwatch-facilitator.ts:72-100 | A final reply ends the call; a redirect sends once more within the same attempt unless the client stopped; a rate limit puts the call to sleep unless it was the third attempt or the client stopped, and sends nothing. |
| `FacilitatorOwnership.RoundWatchFacilitator.Happens` | apps/server/roundwatch-facilitator.ts:61-217 | Whatever happens to the client, nothing is sent behind the fence and it lives as a fenced owner of its calls; the first attempt has number 0 and a resumed call the next number. |
| `FacilitatorOwnership.RoundWatchFacilitator.DrainedMeansIdle` | apps/server/roundwatch-facilitator.ts:67-70 | A resolved drain means that no call is left, not even one asleep before a retry. |
| `ServerClose.NodeServer.Close` | apps/server/roundwatch-shutdown-coordinator.ts:226-240 | Fulfilled without a server, waiting once the close is accepted, fulfilled by a not-running error, incomplete by any other throw. |
| `ServerClose.NodeServer.SettledMeansClosed` | apps/server/roundwatch-shutdown-coordinator.ts:226-240 | A settled close means no listener and no socket, unless the call itself threw that nothing was running. |
| `Shutdown.ShutdownCoordinator.ClosedMeansNoWork` | apps/server/roundwatch-shutdown-coordinator.ts:189-204 | When the store closes, all six workers are fenced and drained: no tracked request, no facilitator call, no sweep or wrapper, no probe, no queued or dispatched request is left, and no socket unless the server's close threw at once that nothing was running. |
| `Shutdown.ShutdownCoordinator.RaiseFences` | apps/server/roundwatch-shutdown-coordinator.ts:112-128 | Every worker whose fence does not throw is fenced before the server closes or a lifetime is joined, whoever else threw; ownership is unproven exactly when a fence or the sampler threw, and that counts as an error. |
| `Shutdown.ShutdownCoordinator.Shutdown` | apps/server/roundwatch-shutdown-coordinator.ts:92-209 | The first call fences and drains every worker that does not throw itself, closes the server, arms the deadline and records exactly who threw; repeated and nested calls add only their error, and only until a result is reported. |
| `Shutdown.ShutdownCoordinator.JoinSettles` | apps/server/roundwatch-shutdown-coordinator.ts:130-148 | A settled join is proof of an owner's end: it needs the owner's own resolved drain or the server's settled close, except for an incomplete server close or a drain that threw, which leave ownership unproven; every rejection counts as one error. |
| `Shutdown.ShutdownCoordinator.DeadlineFires` | apps/server/roundwatch-shutdown-coordinator.ts:156-178 | The deadline terminates with its own status unless a result is there already, at most once, and forfeits closing the store. |
| `Shutdown.ShutdownCoordinator.Conclude` | apps/server/roundwatch-shutdown-coordinator.ts:189-204 | Which of the three results is reported, exactly; the exit code is 0 if and only if everything drained without a single error; the store closes exactly when the shutdown was neither completed nor unproven, and both closes and terminates exactly when clearing the timer runs its callback. |
| `Shutdown.ShutdownCoordinator.BothOnlyWhenClearingFires` | apps/server/roundwatch-shutdown-coordinator.ts:156-178 | A store that closed under a process told to terminate had its deadline callback run by clearing the timer. |
| `Shutdown.TerminatesAndCloses` | apps/server/roundwatch-shutdown-coordinator.ts:189-204 | A run, with an injected timer that fires when it is cleared, that both terminates the process and closes the store. |
| `Shutdown.ShutdownCoordinator.OwnerWorks` | apps/server/roundwatch-shutdown-coordinator.ts:92-209 | Whatever an owner or the server does, before, during or after shutdown, keeps all of this; once the store is closed the owners do not change any more. |
| `HealthProbe.NoFailureSince` | apps/server/roundwatch-health-probe.ts:197-201 | Equal failure counters mean that no failure was observed after the probe started. |
| `HealthProbe.IndexerHealthProbe.CurrentMeansNoLaterFailure` | apps/server/roundwatch-health-probe.ts:197-201 | A current sample comes from a probe that started after every failure observed so far. |
| `HealthProbe.IndexerHealthProbe.InvalidateForProviderFailure` | apps/server/roundwatch-health-probe.ts:79-89 | Every failure outdates earlier probes; the epoch moves once per burst. |
| `HealthProbe.IndexerHealthProbe.RunIfDue` | apps/server/roundwatch-health-probe.ts:121-195 | Joins the probe under way, reuses the latest sample or starts the only one, each exactly when it is due: a healthy current sample lasts the maximum age, an unhealthy one the minimum interval; never more than one probe at any moment. |
| `HealthProbe.IndexerHealthProbe.Settle` | apps/server/roundwatch-health-probe.ts:162-185 | The sample is what the source found at the counters the probe started with; only a complete, current and fresh recovery ends a burst; an interruption changes no evidence. |
| `HealthProbe.IndexerHealthProbe.Drain` | apps/server/roundwatch-health-probe.ts:67-77 | The drain waits for the probe under way, its last continuation included, and no other can follow. |
| `HealthProbe.IndexerHealthProbe.ClearPending` | apps/server/roundwatch-health-probe.ts:185 | Only the final continuation lets another probe start and resolves a requested drain. |
| `HealthProbe.IndexerHealthProbe.Happens` | apps/server/roundwatch-health-probe.ts:59-195 | Whatever happens to the probe, it lives as a fenced owner of the one probe under way, and its history only grows. |
| `PaidReadiness.ReadyExactly` | apps/server/roundwatch-paid-readiness.ts:41-108 | Validation says ready if and only if the refresh was ready, local state is fine now, no worker was restarted, and the evidence is live at this moment. |
| `PaidReadiness.ReportsWhatItFinds` | apps/server/roundwatch-paid-readiness.ts:41-108 | Each check a validation reports is the local state as it is now or, with fine local state and unchanged workers, the live evidence for that capability and its freshness. |
| `PaidReadiness.PaidAdmissionUsesLiveEvidence` | apps/server/roundwatch-paid-readiness.ts:41-108 | From the first look at local state, through a probe that may run, fail and settle meanwhile, to the decision: ready if and only if local state was fine at all three looks, no worker was restarted and the evidence was live at the refresh and is live now, from a probe younger than every observed failure. |
| `PaidReadiness.Refresh` | apps/server/roundwatch-paid-readiness.ts:89-101 | A refresh is ready only with fine local state before and after, unchanged workers and live evidence, and carries the generations it began with. |
| `JsonText.ListPrefix` | apps/server/roundwatch-store.ts:322-362 | The JSON text of an array of strings can be read in only one way, whatever follows it. |
| `StringOrder.SortForgetsOrder` | apps/server/roundwatch-store.ts:345-362 | Sorting strings forgets exactly their order. |
| `IndexSql.Tokenize` | apps/server/roundwatch-store.ts:255-310 | The scanning loop computes the lexer's function. |
| `IndexSql.ReadQuoted` | apps/server/roundwatch-store.ts:274-295 | The inner loop reads one quotation with doubled quotes, or finds it unterminated. |
| `IndexSql.WrittenTokensRead` | apps/server/roundwatch-store.ts:255-310 | Any lexical tokens, written out, lex back to exactly those tokens: nothing leaks out of a quote. |
| `IndexSql.LexedAreLexical` | apps/server/roundwatch-store.ts:255-310 | The lexer produces only such tokens: folded identifiers and words, canonical integers. |
| `IndexLexicon.ScanSays` | apps/server/roundwatch-store.ts:255-310 | Each step of the lexer, position by position: where white space, comments, quotations, names and numbers end, what they become, and when a quotation is never closed. |
| `IndexParser.OpenIndexParser.Primary` | apps/server/roundwatch-store.ts:329-346 | The method with its moving offset parses the grammar's primary. |
| `IndexParser.OpenIndexParser.OrTerms` | apps/server/roundwatch-store.ts:347-356 | The loops parse the grammar's conjunctions and disjunctions. |
| `IndexParser.OpenIndexParser.NormalizeAll` | apps/server/roundwatch-store.ts:312-368 | The whole normalizer: parse, at most one terminator, no suffix, then the normal form. |
| `IndexCoverage.SpelledParses` | apps/server/roundwatch-store.ts:312-368 | Every predicate the grammar can express, written out with or without a terminator, parses back to its meaning. |
| `IndexGrammar.ParsesExactlyPhrases` | apps/server/roundwatch-store.ts:312-368 | The parser accepts a token sequence with a meaning if and only if it is a phrase of the grammar with that meaning, nested parentheses included, followed by at most one terminator. |
| `IndexPredicate.SameNormalForm` | apps/server/roundwatch-store.ts:357-362 | Two parsed predicates have equal normal forms if and only if one is a rearrangement of the other. |
| `IndexPredicate.RearrangedMeansTheSame` | apps/server/roundwatch-store.ts:357-362 | Rearranged predicates have the same three-valued truth on every row. |
| `IndexPredicate.NormalFormKeepsMeaning` | apps/server/roundwatch-store.ts:357-362 | Equal normal forms imply equal three-valued truth on every row. |
| `IndexPredicate.RegroupingKeepsNormalForm` | apps/server/roundwatch-store.ts:357-362 | Dropping same-operator parentheses and reordering terms never changes the normal form. |
| `IndexCoverage.OpenPredicateMeansOpen` | apps/server/roundwatch-store.ts:236-239 | The open-obligation predicate is true of exactly the open rows. |
| `IndexCoverage.AcceptedIndexHoldsOpenRows` | apps/server/roundwatch-store.ts:370-397 | An index accepted by its normal form, however its predicate was written, holds exactly the open rows. |
| `IndexAcceptance.OpenTextReads` | apps/server/roundwatch-store.ts:236-239 | The store's own predicate text lexes to exactly the tokens of the open-obligation predicate. |
| `IndexAcceptance.FindWhere` | apps/server/roundwatch-store.ts:384-389 | The search finds the first WHERE outside all parentheses, or says that there is none. |
| `IndexAcceptance.AcceptsDefinition` | apps/server/roundwatch-store.ts:382-397 | The whole check on a definition's text, errors included. |
| `IndexAcceptance.AcceptedExactly` | apps/server/roundwatch-store.ts:382-397 | A definition is accepted if and only if what follows its structural WHERE parses to a rearrangement of the open-obligation predicate. |
| `IndexAcceptance.OwnDefinitionIsAccepted` | apps/server/roundwatch-store.ts:554-556 | A definition whose structural WHERE is followed by the store's own predicate is accepted, whatever stands before it. |
| `IndexAcceptance.AcceptedDefinitionHoldsOpenRows` | apps/server/roundwatch-store.ts:370-397 | From the text of the definition to the rows: an accepted index holds exactly the open rows. |

## Left out

- HTTP routes, CORS, x402 middleware, facilitator transport and redirects, MCP, OpenAPI, merchant pages, the client and the observatory: plumbing around the modelled logic.
- The create and recover handlers of app.ts beyond the store calls: request parsing, authentication and response texts.
- Metrics, acceptance funnel, telemetry and logs: passive copies.
- URL, UTF-8 and Base64 text, Buffer lengths and address checksums: requests are structured keys, notes are bytes, and an encoded page is known by its length.
- The byte cap on continuation tokens and the retry, timeout and failure classification of provider errors: any request may fail at any await, with any classification.
- The outcome kind a turn reports (progress, evidence or nothing): it only feeds statistics and the clearing of failures, which is an event of its own.
- Backoff, jitter and the rotation of the sweep order: when a turn starts, and on which listed row, is arbitrary.
- Wall-clock sources: every reading is an argument, and the dispatcher's readings are arbitrary reals.
- SQLite itself: each statement or transaction is one atomic step; migrations, index choice and PRAGMA checks are left out, except for the predicate of the open-obligation index.
- Deletion and refund tables, legacy rows written by earlier versions: a database starts empty, so rows are well formed from the beginning.
- Integers beyond the safe range inside the store: rounds and amounts are unbounded naturals there, bounded by the safe maximum where the Indexer layer checks it.
- A numeric amount in another notation than decimal digits: BigInt would also read hexadecimal or surrounding spaces, which admitted specifications never contain.
- Non-BMP characters in index definitions and lone surrogates: text is a sequence of code points, so such a character is one symbol here and two in the source.
- The PRAGMA and schema lookups of the index check: the model starts from the text of the definition.
- The bodies of the owned operations inside the shutdown model: a sweep, a call or a probe is what its counter, flags and suspension points say; what sweeps do to the store is the lifecycle model.
- Error values and messages in the shutdown result: errors are counted.
- A shared request that is still in flight, or was rejected: a sweep serves one watch at a time, so a request has settled before another watch can ask for it, and a turn handed a rejection is one more failure at an await.
- Dispatcher.IndexerRequestDispatcher.ReadStart: the clock's read inside the start loop may stop or drain the dispatcher but not dispatch, because the gates then fail, as the table says; the other reads may do anything.
- Facilitator transport, redirect contents and response validation: a reply is a redirect, a rate limit or final.

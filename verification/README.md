# Ledger model: frozen-history compiler, guarded store, verifiers and credential store

This project models an event-sourced double-entry ledger and proves what its parts promise together.

- **Frozen-history compiler.** Source rows pass an inventory (`Inventory`) and reviewed card decisions pass a
  validation (`CardReview`); amounts are read exactly (`Decimal`); categories are ordered parents first
  (`Categories`, on the wave order of `Waves`); originals, source reversals, corrections and reporting become one
  hash-chained event list (`Frozen`, `Compiler`, `PlanLog`, `Planner`), and two independent card balance
  computations are shown to agree (`PlanBalance`). `ReversalLinks` resolves which transaction reverses which, and
  `ResolvedPlan` plans on what it resolves. `Extract` models the frozen tables all of this reads.
- **Guarded store.** `EventStore`, `JournalStore`, `Generations`, `Outbox`, `Lots` and `CardLedger` each hold the
  tables of one migration as fields of a class; each runtime write is a method that may refuse, deferred triggers
  run at `Commit`, and what every write keeps is proved about the tables as values.
- **Streaming verifier.** `EventVerifier` and `BalanceVerifier` show that single-pass group-by loops decide
  statements about the whole ledger.
- **Credential profile store.** `ProfileStore` runs the save, delete, load and refresh steps with a fate for each
  step (took effect or not, raised or not, died or not) and other profiles' writers in between.

Hashes, UUIDs and JSON encodings are function parameters; collision freedom is assumed only where a lemma says so.
UUID derivation is represented by structured identities, times by integers, one Book by one set of tables with one
writer at a time. `Sums`, `Rows`, `Ids` and `Outcomes` are shared helpers.

Where the code does less than its messages suggest, the model follows the code: deleting a profile beside an
unreadable document clears the marker although the next load raises. Barring another profile's writer that replaces
the document meanwhile, a reported deletion is followed by a load that answers nothing exactly when the token file is
named explicitly or the document was readable before the delete (`ProfileStore.TokenStore.DeleteLocked`;
`ProfileStore.DeleteBesideGarbage` is a run that fails). A refresh response without a new refresh token keeps the one
already sent, so the token then held is unsent exactly when the server rotated it
(`ProfileStore.TokenStore.RefreshLocked`; `ProfileStore.SentTokenLoadedAgain` is a run that loads a sent token).

## Model

| member | source | states |
|---|---|---|
| `Planner.CompilePlan` | backend/tools/frozen_v1_history/planner.py:712-1267 | Of the checks modelled, a plan comes out exactly when the source is clean, the decisions are valid, there is an original, every original has canonical postings, every reversal chain reaches an original and is an exact inverse, no correction hits a reversed transaction, and reporting names only originals; each refusal names the condition that fails, and the two final balance checks can never be what fails. |
| `Planner.PostReversals` | backend/tools/frozen_v1_history/planner.py:844-951 | The worklist ends; it succeeds exactly when every reversal is grounded and exact, and it is stuck exactly when some chain reaches no original while every grounded reversal is exact; its output order is the wave order of the links. |
| `Planner.OneReversal` | backend/tools/frozen_v1_history/planner.py:863-951 | One reversal is accepted exactly when its own rows invert its target's, and the longer list then compiles. |
| `Planner.PostOriginals` | backend/tools/frozen_v1_history/planner.py:765-836 | All originals are queued by time and identity exactly when each has canonical postings. |
| `Planner.PostCorrections` | backend/tools/frozen_v1_history/planner.py:953-1046 | Every requested correction is queued after its target as the exact inverse of the target's event, and the list still compiles. |
| `Planner.AssignReporting` | backend/tools/frozen_v1_history/planner.py:1075-1085 | Given the transactions that have a categorized line, each is assigned a reporting event, in time order, exactly when all of them exist and none is a reversal; each event cites its journal event as compiled before. |
| `Planner.ReversalsFollowTargets` | backend/tools/frozen_v1_history/planner.py:916-935 | In the final list every reversal or correction comes after its target, carries the target's final hash and event identity, and inverts its legs position by position. |
| `Planner.CardBalanceAgrees` | backend/tools/frozen_v1_history/planner.py:1179-1203 | The natural balance folded from the final events of each card account equals the figure the card review computed on its own from the transactions it does not want reversed. |
| `Planner.TerminalHolds` | backend/tools/frozen_v1_history/planner.py:1224-1235 | So for every source and valid review the terminal-balance check and the retired-alias check both hold. |
| `PlanExample.SettlementCompiles` | backend/tools/frozen_v1_history/planner.py:712-1267 | The conditions for a plan are met by a Book with a purchase moved off a retired alias, a purchase and its reversal, and a purchase to be corrected, with card figures of 5 and 0. |
| `ReversalLinks.Resolve` | backend/tools/frozen_v1_history/reversal_links.py:82-144 | Links come out exactly when rows with unique identities name, from either end, at most one target for each reversal and one reversal for each target, both ends lie in one Book, their rows pair off one to one with the same account and asset and signed amounts that cancel, and no chain comes round; they are then the links named, and a refusal names what is wrong. |
| `ReversalLinks.ExactInversesCancel` | backend/tools/frozen_v1_history/reversal_links.py:35-67 | The sorted comparison holds exactly when the rows can be paired one to one, each pair on one account in one asset with opposite signed amounts, where a signed row's amount is the number itself, an explicit row's is the positive number signed by its side, and zero, unreadable or unsupported amounts pair with nothing. |
| `ReversalLinks.ResolvedIsGrounded` | backend/tools/frozen_v1_history/reversal_links.py:139-140 | Every chain of resolved reversals reaches a transaction that reverses nothing. |
| `Waves.CycleExists` | backend/tools/frozen_v1_history/reversal_links.py:70-79 | The walk from each link reports a cycle exactly when some chain of links returns to its start. |
| `ResolvedPlan.CompileResolved` | backend/tools/frozen_v1_history/planner.py:759-764 | On resolved links the reversal worklist can never be stuck; a plan comes out exactly when the links resolve and the remaining conditions hold. |
| `ResolvedPlan.ResolvedSourceIsGrounded` | backend/tools/frozen_v1_history/reversal_links.py:139-140 | A source with resolved links has every chain grounded and no link from an unknown transaction. |
| `Planner.FoldBalances` | backend/tools/frozen_v1_history/planner.py:1179-1194 | The running fold holds, for every account, the debit-less-credit total over all journal events. |
| `Planner.TrialBalanceIsZero` | backend/tools/frozen_v1_history/planner.py:1176-1194 | Every posted and reversed event balances in every asset, so the plan's trial balance is zero in each. |
| `Planner.ChainLinks` | backend/app/track_anywhere/application/imports/event_compiler.py:125-170 | Compiled positions run from one and each hash covers the hash before it, starting from the zero hash. |
| `PlanBalance.CardFigure` | backend/tools/frozen_v1_history/credit_card_review.py:474-531 | Over all transactions but the corrected ones, the planned legs on a card sum to minus the review's figure for it. |
| `PlanBalance.ResolvedIsPlanned` | backend/tools/frozen_v1_history/planner.py:496-542 | For a reviewed transaction the legs the planner posts are the legs the review resolved, although units are read by two different routines. |
| `PlanBalance.InsideDecided` | backend/tools/frozen_v1_history/planner.py:244-262 | A reviewed posting is moved by its own transaction's decision and by no other, so building the decision table never meets a duplicate. |
| `PlanBalance.OutsideUndecided` | backend/tools/frozen_v1_history/planner.py:523-528 | A posting of a transaction outside the review's scope is never moved. |
| `PlanBalance.PlannedBalances` | backend/tools/frozen_v1_history/inventory.py:255-268 | Planned legs of every transaction balance per asset, whether they stand as read or were moved by a decision. |
| `PlanBalance.EventsBalance` | backend/tools/frozen_v1_history/planner.py:545-578 | Each journal event of a plan balances per asset: original, reversed or corrected. |
| `PlanBalance.TagsNet` | backend/tools/frozen_v1_history/planner.py:1179-1194 | Originals, reversals and corrections together count every transaction once and the corrected ones not at all. |
| `PlanLog.NextIsAccepted` | backend/app/track_anywhere/application/imports/event_compiler.py:35-114 | An event built as the planner builds it passes every identity, stream and provenance check of the compiler. |
| `PlanLog.LogGrows` | backend/tools/frozen_v1_history/planner.py:936-951 | Recompiling after each addition keeps every earlier event, hash included, and accepts the new one. |
| `Compiler.CompileEvents` | backend/app/track_anywhere/application/imports/event_compiler.py:115-210 | The list compiles exactly when it is not empty, its events share one command, the import actor and that command as correlation, and each is accepted over the events before it; the result is then the hash chain. |
| `Compiler.ValidateReversal` | backend/app/track_anywhere/application/imports/event_compiler.py:39-82 | A reversal is accepted exactly when it names its target's event, hash and transaction, uses new posting identities, and is the exact inverse leg by leg. |
| `Compiler.PrefixIsStable` | backend/app/track_anywhere/application/imports/event_compiler.py:137-208 | Compiling more events never changes those already compiled. |
| `Frozen.JournalPostingFacts` | backend/tools/frozen_v1_history/planner.py:496-542 | Facts come out exactly when the positions, in whatever order the rows come, are 0 to n-1 once each and every amount can be read under its own column; each row then stands at its own position with its own asset and with the units its text says at scale, on its own account and the side of its sign or side column, or on the account and side decided for it. |
| `Frozen.RowIsAsWritten` | backend/tools/frozen_v1_history/normalize.py:117-141 | A row is read exactly when its text is a representable value at its asset's scale and, under an explicit side, carries no minus and names debit or credit; its side is then the sign or the named side and its units are the value. |
| `Frozen.CanonicalIffNumbered` | backend/tools/frozen_v1_history/planner.py:505-516 | The sorted loop accepts rows exactly when their positions are 0 to n-1 once each and their amounts normalize. |
| `Frozen.FactAtPosition` | backend/tools/frozen_v1_history/planner.py:505-541 | A posting becomes the fact at its own position, with its decided account and side. |
| `Frozen.InverseFacts` | backend/tools/frozen_v1_history/planner.py:545-578 | The legs of a reversing event are the inverse of the original's, under posting identities of their own. |
| `Frozen.SortKeepsSum` | backend/tools/frozen_v1_history/planner.py:505-514 | Ordering the postings changes no total. |
| `Frozen.CheckBalance` | backend/tools/frozen_v1_history/inventory.py:260-268 | The per-side counters agree for every asset exactly when the legs balance in every asset. |
| `Journal.InverseNegates` | backend/tools/frozen_v1_history/planner.py:545-578 | Inverting legs negates every account's and every asset's net. |
| `Inventory.InventoryRows` | backend/tools/frozen_v1_history/inventory.py:151-268 | Of the checks modelled, the issues reported are exactly the defects there are, each under its own code and reference: unacceptable scales, repeated identities and places, unknown transactions, accounts and assets, assets other than the account's, unsupported semantics, unreadable amounts, negative positions, and transactions with under two postings, an unreadable one or an unbalanced asset; no issue means a clean source. |
| `Inventory.TransactionIssues` | backend/tools/frozen_v1_history/inventory.py:255-268 | A transaction is reported as insufficient exactly when it has under two postings, and otherwise as unbalanced exactly when one cannot be read or an asset does not balance. |
| `CardReview.ValidateAgainstSource` | backend/tools/frozen_v1_history/credit_card_review.py:417-599 | Of the checks modelled, a review passes exactly when asset scales are acceptable and it covers the card transactions and their postings, moves them to accounts of the same asset in balance, has each linked reversal's legs pair off one to one with its target's on the other sides, and its alias and terminal figures equal the figures folded from its decisions. |
| `CardReview.TuplesMirror` | backend/tools/frozen_v1_history/credit_card_review.py:553-563 | The sorted comparison of a reversal with its target holds exactly when their legs can be paired one to one, equal in account, asset and units and opposite in side. |
| `CardReview.ExpectedNatural` | backend/tools/frozen_v1_history/credit_card_review.py:474-531 | The counters equal, for each card account and asset, the credit-less-debit total of the transactions left standing. |
| `CardReview.CountDecision` | backend/tools/frozen_v1_history/credit_card_review.py:474-531 | One transaction passes exactly when its decisions cover its postings, name accounts of the posting's asset and balance; it then adds exactly its card legs. |
| `Categories.PlanCategories` | backend/tools/frozen_v1_history/planner.py:356-433 | The list is planned exactly when rows give each category one version with an existing parent and an acceptable reason and the parent map has no cycle. Each category then comes out once, with its own version, name and parent, archived when its row is or its version is closed, with its own reason or the default one, and its parent strictly earlier; each failure means what it says. |
| `Categories.RowOrderIsIrrelevant` | backend/tools/frozen_v1_history/planner.py:359-366 | Neither acceptance nor the planned list depends on the order of category or version rows. |
| `Categories.Wave` | backend/tools/frozen_v1_history/planner.py:413-433 | The ordering loop ends; it fails exactly when the parent map has a cycle, and otherwise lists the waves sorted by identity. |
| `Waves.OrderIsSound` | backend/tools/frozen_v1_history/planner.py:413-433 | An emitted item is emitted once, is grounded, and its prerequisite is done or strictly earlier. |
| `Waves.OrderIsComplete` | backend/tools/frozen_v1_history/planner.py:846-860 | Everything grounded is emitted, so an order is complete exactly when every chain reaches something done or waiting for nothing. |
| `Waves.GroundedIffAcyclic` | backend/tools/frozen_v1_history/planner.py:416-428 | In a parent map whose parents all exist, every chain ends exactly when there is no cycle. |
| `Rows.BuildIndex` | backend/tools/frozen_v1_history/planner.py:155-162 | Indexing refuses exactly the tables with a repeated identity. |
| `Rows.IndexIgnoresOrder` | backend/tools/frozen_v1_history/planner.py:155-162 | Rows in another order are accepted alike and spell the same table. |
| `Rows.SameBagIsRearranged` | backend/tools/frozen_v1_history/reversal_links.py:60-67 | Lists with equal sorted contents are rearrangements of each other, element by element. |
| `Rows.RearrangedIsSameBag` | backend/tools/frozen_v1_history/reversal_links.py:60-67 | And a rearrangement has the same contents. |
| `Decimal.ParseIsThePattern` | backend/tools/frozen_v1_history/normalize.py:7-12 | Text is split by the parser exactly as the anchored pattern matches it, sign, whole part, fraction and exponent. |
| `Decimal.AcceptedIffExact` | backend/tools/frozen_v1_history/normalize.py:69-107 | Text is accepted exactly when its exponent has at most six significant digits and its value at ledger scale is a nonzero whole number below ten to the 38 in magnitude; the units are that number. |
| `Decimal.ExponentReads` | backend/tools/frozen_v1_history/normalize.py:80-90 | An exponent is its digits read as a number under its sign, and has at most six significant digits exactly when that number is below a million. |
| `Decimal.EqualValuesEqualUnits` | backend/tools/frozen_v1_history/normalize.py:69-107 | Two spellings of one value are accepted alike and give the same units. |
| `Decimal.RaisingTheScale` | backend/tools/frozen_v1_history/normalize.py:69-107 | Raising the scale by k multiplies the units by ten to the k, and is accepted exactly while that stays in bounds. |
| `Decimal.LedgerScaleKeepsValue` | backend/tools/frozen_v1_history/normalize.py:22-46 | The ledger scale is never below the source scale, and an amount read at it has the same value: its units grow by the power of ten between the two. |
| `Decimal.NeverEmptyRetained` | backend/tools/frozen_v1_history/normalize.py:95-101 | The branch for an empty retained digit string is never reached. |
| `Decimal.LegacyAmountIsSigned` | backend/tools/frozen_v1_history/normalize.py:117-124 | An accepted signed amount has positive units below the bound and its side is the sign of the text. |
| `Decimal.ExplicitUnitsAreLegacyUnits` | backend/tools/frozen_v1_history/normalize.py:117-141 | Whatever the explicit-side routine accepts, the signed routine accepts with the same units. |
| `Decimal.ExplicitIsAsWritten` | backend/tools/frozen_v1_history/normalize.py:127-141 | The explicit routine accepts exactly unsigned text of a representable value with a side of debit or credit; it is then on that side and its units are the value at scale. |
| `Decimal.LegacyIsAsWritten` | backend/tools/frozen_v1_history/normalize.py:117-124 | The signed routine accepts exactly text of a representable value; a minus puts it on the credit side and its units are the value's size at scale. |
| `Decimal.LedgerScaleRule` | backend/tools/frozen_v1_history/normalize.py:22-46 | A source scale is accepted exactly within 0 to 30 with a display scale no finer than the ledger scale; the ledger scale is the source's own, raised to eight for USDT. |
| `CardLedger.RefundsStayCovered` | alembic/versions/v2_0010_credit_card_transactions.py:343-390 | Over every run of postings, card rows and reversals from empty tables, each charge's unreversed refunds sum to at most the charge, and a reversed charge has none. |
| `CardLedger.ApplyKeepsInv` | alembic/versions/v2_0010_credit_card_transactions.py:343-477 | Every accepted write keeps refund coverage, typed rows bound to their legs, and card balances matched to unreversed originals. |
| `CardLedger.RunKeepsInv` | alembic/versions/v2_0010_credit_card_transactions.py:343-477 | So does every run, and rows are only ever added. |
| `CardLedger.ReversedRefundStaysInactive` | alembic/versions/v2_0010_credit_card_transactions.py:396-477 | A refund once reversed is active for no charge in any later state. |
| `CardLedger.ReversalFrees` | alembic/versions/v2_0010_credit_card_transactions.py:454-472 | Reversing an active refund frees exactly its units of its own charge, and changes no other charge's total. |
| `CardLedger.RecordedRefund` | alembic/versions/v2_0010_credit_card_transactions.py:376-390 | Recording a refund adds exactly its units to its own charge's active total and to no other. |
| `CardLedger.TypedCardBalance` | alembic/versions/v2_0010_credit_card_transactions.py:267-337 | Where only typed transactions and reversals touch a card, its credits less debits equal unreversed charges plus fees minus unreversed payments and refunds. |
| `CardLedger.CardBalance` | alembic/versions/v2_0010_credit_card_transactions.py:267-337 | In general the difference is exactly what unreversed untyped transactions put on the card. |
| `CardLedger.NetExpenseBounded` | alembic/versions/v2_0010_credit_card_transactions.py:343-390 | What a charge leaves on its expense account is its units less active refunds, or nothing once reversed, and stays between zero and its units. |
| `CardLedger.Store.ActiveRefundTotal` | alembic/versions/v2_0010_credit_card_transactions.py:376-385 | The summing query returns the units of the charge's refunds that have no reversal. |
| `CardLedger.Store.Record` | alembic/versions/v2_0010_credit_card_transactions.py:267-390 | A typed row is stored exactly when it binds its two legs and, for a refund, names an unreversed charge on the same accounts with room left. |
| `CardLedger.Store.ReverseTransaction` | backend/app/track_anywhere/infrastructure/projections/synchronous_appliers/journal.py:138-226 | A reversal is stored exactly when the legs are the exact inverse, the original is not yet reversed, and the card rules allow it. |
| `JournalStore.TouchedChecksSuffice` | alembic/versions/v2_0004_sync_projections.py:577-662 | Starting from sound tables, the deferred checks on touched keys alone all pass exactly when every transaction is sound. |
| `JournalStore.Store.Commit` | alembic/versions/v2_0004_sync_projections.py:740-751 | A commit succeeds exactly when every transaction has at least two postings and balances per asset, and otherwise restores the committed tables. |
| `JournalStore.Store.UpdatePosting` | alembic/versions/v2_0004_sync_projections.py:630-640 | Moving a posting queues the checks of both the old and the new transaction. |
| `JournalStore.NetPerAsset` | alembic/versions/v2_0004_sync_projections.py:602-618 | The grouped sum is, for every asset, the net of the transaction's postings. |
| `EventStore.CountIffOwns` | alembic/versions/v2_0003_event_store.py:541-556 | With unique positions, the counted events equal the range's length exactly when the command owns every position of the range. |
| `EventStore.RangesDisjoint` | alembic/versions/v2_0003_event_store.py:228-230 | Ranges of different receipts in one Book never meet. |
| `EventStore.SettledForever` | alembic/versions/v2_0003_event_store.py:491-518 | In every later committed state a completed receipt is unchanged and still owns every position of its range. |
| `EventStore.Store.CompleteReceipt` | alembic/versions/v2_0003_event_store.py:495-518 | A receipt is completed once, from processing, without changing its command. |
| `EventStore.Store.Commit` | alembic/versions/v2_0003_event_store.py:519-559 | A commit succeeds exactly when every receipt is completed and owns its range without a gap. |
| `Lots.LotConservation` | alembic/versions/v2_0006_investment_lot_projection.py:318-464 | What a lot has lost is what its matched allocations took, in quantity and in cost; each decrement has an allocation of its own; both remainders reach zero together; and there are at most as many decrements as starting units of either. |
| `Lots.ApplyKeepsInv` | alembic/versions/v2_0006_investment_lot_projection.py:318-443 | Every accepted write keeps remainders equal to the starting ones less the decrements, and source positions strictly advancing per lot. |
| `Lots.OneAllocation` | alembic/versions/v2_0006_investment_lot_projection.py:397-443 | Two allocations that fit one decrement are the same row. |
| `Lots.MatchedSums` | alembic/versions/v2_0006_investment_lot_projection.py:445-463 | The matched allocations of the first updates sum to what those updates took. |
| `Lots.Store.Decrease` | alembic/versions/v2_0006_investment_lot_projection.py:360-393 | A decrement is stored exactly when the guards hold, lowers both remainders, and queues its deferred check. |
| `Lots.Store.Commit` | alembic/versions/v2_0006_investment_lot_projection.py:445-464 | A commit succeeds exactly when every decrement ever made has its exact allocation. |
| `Generations.CommitCheckIsServed` | alembic/versions/v2_0005_async_projection_outbox.py:544-612 | The deferred check passes exactly when a checkpointed projection has one active generation with the checkpoint's cursor, and one without a checkpoint has none. |
| `Generations.VisibleCursorMonotone` | alembic/versions/v2_0005_async_projection_outbox.py:534-695 | Across all commits, switches included, the cursor readers see never decreases. |
| `Generations.SwitchIsSafe` | alembic/versions/v2_0005_async_projection_outbox.py:613-695 | A replacement generation has reached the target it was activated at and is at or past the retired one's last committed cursor, and the old one is retired for good. |
| `Generations.ApplyKeepsInv` | alembic/versions/v2_0005_async_projection_outbox.py:613-695 | Every accepted write moves cursors, targets and lifecycles only forward and keeps one active generation at most. |
| `Generations.BeforeUpdate` | alembic/versions/v2_0005_async_projection_outbox.py:622-677 | The trigger rewrites both timestamps for each allowed transition and refuses every other. |
| `Generations.Store.Commit` | alembic/versions/v2_0005_async_projection_outbox.py:544-612 | A commit succeeds exactly when the tables serve readers. |
| `Outbox.ClaimHolds` | alembic/versions/v2_0005_async_projection_outbox.py:745-767 | While the clock is before its expiry an undelivered claim keeps its owner and never gets shorter. |
| `Outbox.DeliveredUnderClaim` | alembic/versions/v2_0005_async_projection_outbox.py:745-789 | Every delivered row of a run from insertion was delivered by one update, under a claim unexpired at that update's clock reading, whose owner took the message earlier and held it without interruption until then. |
| `Outbox.DeliveryIsFinal` | alembic/versions/v2_0005_async_projection_outbox.py:735-744 | After delivery the row never changes. |
| `Outbox.AttemptsCoverTakes` | alembic/versions/v2_0005_async_projection_outbox.py:731-754 | The attempt count is at least the number of times a new owner took the message. |
| `Outbox.Guard` | alembic/versions/v2_0005_async_projection_outbox.py:730-792 | The trigger's steps together accept exactly the updates whose conditions are stated declaratively. |
| `Outbox.Table.Update` | alembic/versions/v2_0005_async_projection_outbox.py:730-792 | An update is stored exactly when the guard accepts it, and every row stays the end of a legal run. |
| `EventVerifier.VerifyEvents` | backend/app/track_anywhere/verification.py:171-254 | The streaming pass reports exactly what is wrong: gaps at the event's place in its Book, previous hashes other than the predecessor's, refused contracts, hashes that do not recompute, Books with events and no head, and heads whose position or hash is not the last event's; it reports nothing exactly when the ledger is sound. |
| `EventVerifier.SoundIffNoDefect` | backend/app/track_anywhere/verification.py:138-254 | A ledger without any of those defects is one where every Book with events has a head, positions are 1 to n, previous hashes chain from zero, contracts hold, hashes recompute, the head is (n, last hash), and heads without events are (0, zero). |
| `EventVerifier.PassingLedgersAgree` | backend/app/track_anywhere/verification.py:171-254 | With collision-free hashing, two passing ledgers with equal heads for a Book hold the same events there on all hashed fields. |
| `EventVerifier.SameHeadSameEvents` | backend/app/track_anywhere/verification.py:138-152 | Two chains of one length that end in one hash agree event by event. |
| `BalanceVerifier.VerifyPostings` | backend/app/track_anywhere/verification.py:389-430 | The streaming pass reports exactly the Book, transaction and asset triples with a nonzero net, each once. |
| `BalanceVerifier.VerifyBalances` | backend/app/track_anywhere/verification.py:433-512 | The balance pass reports exactly the keys where the stored balance differs from the folded postings, absent counting as zero, each once. |
| `BalanceVerifier.GroupTotals` | backend/app/track_anywhere/verification.py:439-460 | The grouped subquery holds one total for each key with a posting. |
| `BalanceVerifier.CleanPassesSumToZero` | backend/app/track_anywhere/verification.py:389-512 | If neither pass reports anything, the stored balances of every Book and asset sum to zero. |
| `ProfileStore.LoadIsLastCompleted` | cli/track_anywhere_cli/config.py:204-252 | Without the marker the profile is in at most one store, and load answers the last completed save; after a completed delete it answers nothing or, beside an unreadable document, raises. |
| `ProfileStore.DeleteBesideGarbage` | cli/track_anywhere_cli/config.py:310-367 | A run that reaches the failure: a delete from an unreadable document, no step failing, is reported deleted and the next load raises. |
| `ProfileStore.SentTokenLoadedAgain` | cli/track_anywhere_cli/oauth_login.py:448-526 | A run that reaches the other failure: a refresh answered without a new token, no step failing, leaves the sent token to be loaded again. |
| `ProfileStore.OthersKeepOwn` | cli/track_anywhere_cli/config.py:426-447 | However many writers of other profiles come between two steps, they never change this profile's entry, break the promise or make the document unreadable. |
| `ProfileStore.TokenStore.SaveLocked` | cli/track_anywhere_cli/config.py:254-296 | With a failure or a crash at any step and other writers in between, the store afterwards keeps the promise: marked, or holding this save, or untouched. It returns exactly when no step failed but for a keyring write, after which the file is used; the profile is in the keyring exactly when that write returned; an error of the operating system after the marker is followed by marking again. Every other profile's entry is what it was before plus exactly what other writers did meanwhile. |
| `ProfileStore.TokenStore.DeleteLocked` | cli/track_anywhere_cli/config.py:306-367 | The same for delete, other profiles' entries included; deletion is reported exactly when no step failed. After a reported deletion load answers nothing if the file is named explicitly or the document was readable before; if it was not, and no other writer replaced it, load raises. |
| `ProfileStore.TokenStore.LoadLocked` | cli/track_anywhere_cli/config.py:204-252 | Under the profile lock a load returns exactly when no step failed, the profile is not marked and the document is valid; it then gives the last completed operation's profile and, when the server always rotates, a refresh token never sent before. |
| `ProfileStore.TokenStore.RefreshLocked` | cli/track_anywhere_cli/oauth_login.py:448-526 | A refresh reloads under the lock. A profile not yet due is returned with nothing sent; one due without a refresh token or endpoint is refused. Otherwise it marks before it sends and saves and returns the answer's access token, an expiry of now plus the answered lifetime, the answer's scope if any, and the endpoint as before; the token it then holds is unsent exactly when the server rotated it. Other profiles' entries are kept. |
| `ProfileStore.TokenStore.WriteProfileFile` | cli/track_anywhere_cli/config.py:406-413 | Writing this profile's entry leaves every other entry of the document as it was but for what other writers did between the steps, whatever step fails. |
| `ProfileStore.TokenStore.Run` | cli/track_anywhere_cli/config.py:254-374 | Over any sequence of logins, saves, deletes and refreshes, each ending at any of its steps, the promise and the token safety hold. |
| `ProfileStore.TokenStore.CleanKeyring` | cli/track_anywhere_cli/config.py:270-284 | Keyring clean-up that returns leaves no entry; it touches the keyring only where it is in use, and ends with its first failing step. |
| `ProfileStore.TokenStore.EmptyStores` | cli/track_anywhere_cli/config.py:322-357 | A delete empties the document even where the keyring could not be emptied, unless the process died there. |
| `ProfileStore.TokenStore.SaveFileAuthority` | cli/track_anywhere_cli/config.py:403-419 | A save to the file returns exactly when no step failed; a failing step ends it, and an error of the operating system is followed by marking again. |
| `ProfileStore.TokenStore.RemoveProfileFile` | cli/track_anywhere_cli/config.py:426-447 | Removal that returns leaves a readable document without this profile, and every other profile's entry as the other writers left it. |
| `Extract.RowOrderIsIrrelevant` | backend/tools/frozen_v1_history/extract.py:369-391 | Rows in any order give the identical table and digest, or are refused in every order. |
| `Extract.CanonicalizeTable` | backend/tools/frozen_v1_history/extract.py:369-391 | A table comes out exactly when every row has the audited columns and canonical values whose primary-key columns encode, and no two rows encode alike in all of those columns. Its rows are then the given rows in canonical form, ascending strictly by the encodings of exactly the primary-key columns in their order, with the digest of their lines. |
| `Extract.VerifyTable` | backend/tools/frozen_v1_history/extract.py:394-411 | A frozen table is accepted exactly when its rows have the columns, each row's primary-key encodings are strictly above the row's before it, and its lines hash to its digest. |
| `Extract.BelowMeans` | backend/tools/frozen_v1_history/extract.py:382-405 | The order of keys is the order of their first differing part, a shorter key before a longer one it begins. |
| `Extract.SameDigestSameRows` | backend/tools/frozen_v1_history/extract.py:384-411 | With collision-free hashing and encoding, two accepted tables with one digest hold the same rows in the same order. |
| `Extract.CanonicalTableVerifies` | backend/tools/frozen_v1_history/extract.py:369-411 | Every canonicalized table passes the verifier. |
| `Extract.AscendingIsUnique` | backend/tools/frozen_v1_history/extract.py:382-383 | Strictly key-sorted lists of the same rows are equal. |
| `Extract.CanonicalizeTwice` | backend/tools/frozen_v1_history/extract.py:312-342 | Canonicalizing a canonical value changes nothing. |
| `Extract.CanonicalizeIsCanonical` | backend/tools/frozen_v1_history/extract.py:312-342 | A value is refused exactly when it holds a float, a non-finite decimal, a naive instant, a non-text key or a foreign type at any depth; otherwise the result is plain JSON. |
| `Extract.CanonicalizeRenders` | backend/tools/frozen_v1_history/extract.py:312-342 | Each kind of value comes out as its own rendering: scalars as they are, decimals, instants, dates, identities and bytes as their text, lists and objects item by item. |
| `Extract.ThawFreeze` | backend/tools/frozen_v1_history/extract.py:353-366 | Thawing a frozen canonical value gives it back. |
| `Extract.FreezeThaw` | backend/tools/frozen_v1_history/extract.py:353-366 | Freezing a thawed frozen value gives it back. |

## Left out

- Planner.CompilePlan: fixed counts, the FX topology, account subtypes and names, description, archive and asset records, and the category binding of reporting lines are not modelled; none of them feeds an event hash check or a balance.
- Planner.CompilePlan: the checks that approved content hashes match (of the source manifest, the review and each reviewed row) are not modelled, so the theorems hold for any source and review that pass the remaining checks.
- Planner.AssignReporting: which lines are categorized, how many a transaction may have, and the category, version, asset and amount written into the reporting event are not modelled; each is a lookup or a check on one line.
- ReversalLinks.Resolve: reading an amount as a number is a parameter, and which links were inferred rather than named by the reversal is not reported.
- Keys joined with a NUL character: account identities are taken as values, so an identity that itself holds the separator is not represented.
- Categories.PlanCategories: required-text and type checks on columns are replaced by types.
- Inventory.InventoryRows: checks on categories, lines, timestamps, Books and counterparties, and repeated or blank identities in tables other than postings, are left out; they settle row by row, and the model has one Book.
- CardReview.ValidateAgainstSource: parsing of the review document, its counts and its hash bindings.
- EventStore: head and stream-head guards, request hashes and expiry; contiguity of positions in a Book is not claimed.
- JournalStore: source-event binding of journal rows and projection markers, which a single trigger settles.
- Lots: a lot's starting remainder need not be its acquired amount, and an allocation need not have a decrement; neither is enforced by the triggers.
- Generations: dirty periods and projection failures.
- Outbox: the delivering worker is not required to be the claim's owner, because the guard does not require it.
- CardLedger.Store.ReverseTransaction: the exact-inverse check comes from the projection code that writes reversals, not from the trigger alone.
- EventVerifier: stream heads and checkpoints; a stream with a missing head row is not reported by the code either.
- BalanceVerifier: row hashing of transactions, postings and balances.
- ProfileStore: raw token files saved without locks, URL canonicalization, profile decoding, loads made without the profile lock, and keyring or file contents changed by other programs.
- ProfileStore.TokenStore.RefreshLocked: a token counts as sent when it goes to the token endpoint; logout also shows it to the revocation endpoint before the marker is written.
- ProfileStore.TokenStore.Run: processes of one profile run one after another under its lock; the keyring module is always present or always absent, and the token file is always or never named explicitly.
- Extract: mappings with non-text keys are refused by canonicalization; how freezing renames them is not modelled. Text, decimal and time rendering are carried as their text.
- The remaining migrations, the command line, HTTP, rendering and the frontend, which would add only easy members.

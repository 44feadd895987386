# Louver Cloud: what the service promises, proved

Louver Cloud sells concurrent live-broadcast slots and runs the broadcasts. This
project models the parts of it where state is shared, money changes hands or
files are replaced under a running broadcast, and proves what holds there in
every run. SQL tables are maps or sequences of rows, a transaction is one atomic
step, time is a number of seconds that the caller supplies. Code that changes
rows or fields in place is a class whose methods are proved against functions;
the laws are lemmas about those functions and about runs of them.

- `Slots`: starting a broadcast reads the account's plan and then claims a slot
  in a transaction. Ceilings are proved over every interleaving of reads, claims,
  stops, hold-backs, give-ups, deletions, edits and plan changes.
- `Billing`, `Notifications`, `BillingRuns`, `BillingWorld`, `BillingLaws`, `BillingAudit`:
  checkout, the provider's notifications, cancellation, the audit for
  entitlements nobody pays for and its repair. A notification is three steps
  (check, note, grant) and a run may stop between any two.
- `Revenue`: the report over the payment ledger.
- `Plans`, `GrantHistory`, `GrantLaws`: which plan applies, and grants an
  operator writes, extends, moves and takes back.
- `Media`, `Preparation`, `PreparationInv`, `PreparationLaws`, `Ingest`,
  `Playlists`, `Convergence`, `InFlight`, `Misdescribed`, `MediaAudit`, `AuditedDeletion`: preparing uploads with one encoder
  slot, panics and crashes anywhere, deletion, the storage audit, and playlists
  that can be joined packet by packet. `Ingest` is the pipeline in place, as one
  thread runs it; `Preparation` is the same steps interleaved.
- `Throttling`: the sliding-window limiter for sign-in routes.
- `FormCodec`: the form encoding spoken with the payment provider.
- `Cameras`: the camera catalogue.
- `Common`, `Text`: sums over maps, trimming and a few other string operations.

## Where the code and its documentation disagree

The model follows the code. Each line names the lemma that settles it.

- A grant "cannot lower anything" (`crates/louver-cloud/src/grants.rs:13`) is
  true of streams and false of other limits: `Plans.NothingIsLoweredExactly`.
- "Extending" under a batch's plan can replace a stronger plan by a weaker one,
  exactly as `GrantLaws.ExtendingWeakensExactly` says. The comment at `grants.rs:481` says the
  strongest grant is extended; the query takes the one that ends last. The two differ
  exactly as `GrantLaws.StrongestIsPassedOverExactly` says, as in `GrantLaws.WeakerGrantIsExtended`.
- A grant revoked while a change to it is being written, and only then, comes
  back, and two extensions of one grant do not add up:
  `GrantLaws.RevocationHoldsExactly`, `GrantLaws.ParallelExtensionsDoNotAdd`.
- "A crash between them cannot leave a payment recorded but unapplied"
  (`db.rs:1575`) is true of the record's status and not of the plan:
  `BillingRuns.LostActivation`.
- A payment announced in two states under one payment number is recorded in the
  first only: `BillingRuns.OneNumberTwoStates`.
- The audit's list "should never appear again" (`db.rs:1487`), and a repair
  "cannot take a plan off an account that is paying" (`db.rs:1530`): exactly when
  the first fails is `BillingAudit.MismatchArisesExactly`, and the second fails as in
  `BillingAudit.RepairTakesFromAPayer`, in the run of `BillingAudit.PayerLosesThePlan`.
- "At most one" live billing record "should ever exist per user, and the checkout path
  refuses to create a second" (`db.rs:1381`): two checkouts at once create one
  (`BillingAudit.TwoCheckoutsAtOnce`), and so does a refund reported after a
  cancellation; exactly which steps and runs do is
  `BillingAudit.SecondArisesExactly` and `BillingAudit.OneRegistrationExactly`.
- The week label is "the Monday of that week" (`admin.rs:644`) except on Mondays:
  `Revenue.WeekLabelExactly`.
- A file just stored and not yet recorded, or stored and recorded while the audit
  was between its rows and its walk, is called safe to delete by the storage
  audit: `AuditedDeletion.AuditIsRightExactly`,
  `AuditedDeletion.UploadedDuringTheWalk`.
- An output that cannot be probed "is recorded as canonical-unknown"
  (`ingest.rs:543`): it reads as whatever the row said before, and a first one as
  canonical, and passes the start gate as such:
  `PreparationLaws.UnreadOutputIsDescribedExactly`,
  `Playlists.MisdescribedPassesBothGates`, `Misdescribed.MisdescribedIsPlayed`.
- A media pinned while it is being prepared can end native, or marked as
  preparing with nobody preparing it; exactly when, by how far its worker was:
  `InFlight.PinIsOvertakenExactly`, `InFlight.QueuedInVainExactly`.
- Reading a form is "tolerant by design" (`billing.rs:221`), and panics on some
  bodies: `FormCodec.ParsingStopsExactly`.
- The dashboard's number of broadcasts "holding a slot" also counts parked and
  lingering ones: `Slots.DashboardCountsMore`.
- Importing the same camera list again "updates rather than duplicates"
  (`cctv.rs:831`) for all lists of some cameras and addresses exactly if no camera with
  two addresses shares one of them with another camera: `Cameras.ReimportSafeExactly`, `Cameras.ReimportCanInsert`.
- The limiter's ten attempts per sixty seconds hold if its readings of the clock never
  go back. It reads the clock before taking its lock, and if one thread may so fall
  behind another by some lag, ten is the bound for spans shorter by that lag and for no
  longer ones: `Throttling.TenPerSpanExactly`; `Throttling.LateLockersExceedTheBound` has nineteen.
  The other laws of the limiter are for a clock that does not go backwards.

## Model

| member | source | states |
|---|---|---|
| `Slots.BroadcastStore.ClaimStreamSlotWithin` | crates/louver-cloud/src/entitlement.rs:183-273 | the transaction takes a slot or refuses with the reason, exactly as the claim on values |
| `Slots.BroadcastStore.ReleaseStreamSlot` | crates/louver-cloud/src/entitlement.rs:276-288 | a slot is given back by its owner only |
| `Slots.ClaimTakesOneSlot` | crates/louver-cloud/src/entitlement.rs:183-273 | a granted claim raises its account's count by one within the plan and the encoder count exactly when the broadcast encodes, within the budget; every other count stays; a refused claim changes nothing |
| `Slots.ClaimGrantedExactly` | crates/louver-cloud/src/entitlement.rs:183-273 | which claims are granted: the owner's, of a row without a slot (held-back rows included), with room under both ceilings |
| `Slots.ClaimTwiceIsOnce` | crates/louver-cloud/src/entitlement.rs:205-226 | a second claim of a held slot is free, whatever ceilings it reads |
| `Slots.EncodesExactly` | crates/louver-cloud/src/entitlement.rs:205-214 | a row encodes exactly when its address is not blank |
| `Slots.ClaimAnswersExactly` | crates/louver-cloud/src/entitlement.rs:197-260 | every answer to a claim from the raw rows: the account's rows meant to run and not held back against its plan, then, for a row with an address only, the machine's such rows against the budget |
| `Slots.ReleaseFreesExactly` | crates/louver-cloud/src/entitlement.rs:276-288 | stopping succeeds exactly for the owner's row, which leaves every count; otherwise nothing changes |
| `Slots.ParkingFrees` | crates/louver-cloud/src/db.rs:2946-3003 | holding a row back or giving up on it takes it out of both counts and touches no other row |
| `Slots.DeleteFreesExactly` | crates/louver-cloud/src/db.rs:2700-2710 | deleting succeeds exactly for the owner's row and takes it out of both counts |
| `Slots.ReleasedSlotCanBeClaimed` | crates/louver-cloud/src/entitlement.rs:228-239 | a claim refused because the plan was full is granted after one of its slots is given back |
| `Slots.ReleasedEncoderCanBeClaimed` | crates/louver-cloud/src/entitlement.rs:250-260 | and one refused for the encoders after any camera's broadcast is |
| `Slots.DashboardCountsMore` | crates/louver-cloud/src/entitlement.rs:144-160 | the dashboard's count exceeds the claim's by the parked and the lingering rows, so they agree exactly when there are none |
| `Slots.CeilingsHold` | crates/louver-cloud/src/entitlement.rs:183-273 | in every run, with plan changes and edits, no account exceeds the largest ceiling any of its starts has read, and the encoders exceed the budget at most by the edits that put one on a running row |
| `Slots.EditRaisesEncodersExactly` | crates/louver-cloud/src/db.rs:2799-2804 | an edit of the camera address raises the encoder count exactly when it adds one to a row that holds a slot |
| `Slots.StepsAreTheOperations` | crates/louver-cloud/src/entitlement.rs:183-288 | every step of a run but a start is its own write, and leaves the rest |
| `Slots.UninterruptedStart` | crates/louver-cloud/src/entitlement.rs:183-273 | a start nothing interrupts is a claim under the plan in force |
| `Slots.PlanAndBudgetHold` | crates/louver-cloud/src/entitlement.rs:183-273 | with plans and addresses fixed, every account stays within its plan and the machine within its budget in every run |
| `Slots.LastSlotGoesOnce` | crates/louver-cloud/src/entitlement.rs:228-273 | two claims that race for an account's last slot, encoding or not: one is granted, the other refused |
| `Slots.LastEncoderGoesOnce` | crates/louver-cloud/src/entitlement.rs:250-273 | two claims that race for the last encoder, of any accounts: one is granted, the other refused |
| `Billing.BillingStore.RecordBillingPayment` | crates/louver-cloud/src/db.rs:1578-1622 | ledger row and status change together, once per event key |
| `Billing.BillingStore.Feedback` | crates/louver-cloud/src/billing.rs:552-659 | one notification: five refusals in order, the ledger, then the plan of the record |
| `Billing.BillingStore.CancelBillingAndRevoke` | crates/louver-cloud/src/db.rs:1436-1483 | record and entitlement end in one transaction |
| `Billing.BillingStore.FixBillingMismatch` | crates/louver-cloud/src/db.rs:1534-1544 | repairs a listed row and refuses any other |
| `Billing.BillingStore.RepairAll` | apps/server/src/main.rs:278-291 | the repair loop is the repair of the whole list on values |
| `Notifications.RefusedAtTheFirstFault` | crates/louver-cloud/src/billing.rs:552-593 | which refusal is given, field by field: credentials, order, price, registration, in that order; the database changes exactly when all hold and the key is new |
| `Notifications.AcceptedChangesExactly` | crates/louver-cloud/src/billing.rs:595-657 | what an accepted one writes: its ledger row, the status its state means, and the plan exactly for a payment |
| `Notifications.LedgerRowsWereReceived` | crates/louver-cloud/src/billing.rs:540-573 | in every run every ledger row was received as a notification with all three credentials, naming its record, price and registration |
| `Notifications.SameEventExactly` | crates/louver-cloud/src/billing.rs:592-601 | when two notifications are one event: equal payment numbers, or without any the same state of the same record on the same date |
| `Notifications.FieldsAreTrimmed` | crates/louver-cloud/src/billing.rs:553 | a field is read without the white space around it, and as empty if absent |
| `Notifications.PricesAreRead` | crates/louver-cloud/src/billing.rs:573-574 | a price is read through its commas; what is no number is -1 |
| `Text.NumbersReadBack` | crates/louver-cloud/src/billing.rs:574 | every number that fits 64 bits is read as written, signed or not, and no other |
| `BillingRuns.DuplicatesChangeNothing` | crates/louver-cloud/src/billing.rs:592-657 | duplicating notifications anywhere, whatever the copies meet, ends in the same ledger, records and plans |
| `BillingRuns.PlanReturnsExactly` | crates/louver-cloud/src/billing.rs:552-659 | a run of notifications gives an unsubscribed account a plan exactly when one pays for its record under an event key nobody used before |
| `BillingRuns.OneNumberTwoStates` | crates/louver-cloud/src/billing.rs:597-601 | a payment number seen in another state first is never activated |
| `BillingRuns.LostActivation` | crates/louver-cloud/src/billing.rs:637-653 | a payment whose second transaction is lost stays recorded, and no retry activates it |
| `BillingWorld.NextKeepsSound` | crates/louver-cloud/src/db.rs:1326-1773 | every step keeps: users and subscriptions agree, keys unique, ledger rows match their records, activated exactly when paid, failed registrations unpaid, payments in flight real and applied once |
| `BillingLaws.EveryRunIsSound` | crates/louver-cloud/src/db.rs:1759-1773 | all of that in every reachable state |
| `BillingLaws.FeedbackIsThreeSteps` | crates/louver-cloud/src/billing.rs:552-659 | an uninterrupted notification is check, note and grant in a row |
| `BillingLaws.ReplayIsInert` | crates/louver-cloud/src/billing.rs:635-640 | a notification whose key is in the ledger changes nothing ever again, whatever happened since |
| `BillingLaws.PlanReturnsOnlyByUnappliedPayment` | crates/louver-cloud/src/billing.rs:637-653 | after a plan is taken, in any interleaving, only the operator or a payment not applied before gives one back |
| `BillingLaws.TermsNeverChange` | crates/louver-cloud/src/db.rs:1386-1622 | in every run a record keeps its account, plan and price, and its registration, first payment and cancellation are written once |
| `BillingLaws.OnlySigningUpAddsAccounts` | crates/louver-cloud/src/db.rs:570-580 | no other step adds an account: a plan written for an unknown one is refused |
| `BillingLaws.FailedRegistrationStaysUnpaid` | crates/louver-cloud/src/billing.rs:399-425 | a record whose registration failed is never activated and never paid for |
| `BillingLaws.RevenueIsConserved` | crates/louver-cloud/src/admin.rs:631-633 | all-time revenue is the sum over records of stored amount times distinct payments, and only activated records have any |
| `BillingAudit.CancelRevokesExactly` | crates/louver-cloud/src/db.rs:1417-1483 | a cancellation takes a plan exactly when the ledger holds a payment for the record and the account is on its plan; nothing else moves |
| `BillingAudit.CancelTwiceIsOnce` | crates/louver-cloud/src/db.rs:1450-1478 | cancelling again changes nothing |
| `BillingAudit.MismatchArisesExactly` | crates/louver-cloud/src/db.rs:1485-1526 | a record joins the audit's list exactly when it is over and paid and its account is given the same plan again |
| `BillingAudit.AuditStaysEmpty` | crates/louver-cloud/src/db.rs:1485-1526 | without such a step the list, once empty, stays empty in every run |
| `BillingAudit.RepairEmptiesTheList` | apps/server/src/main.rs:278-291 | the repair ends with an empty list, takes the plan of exactly the accounts listed, and leaves the ledger |
| `BillingAudit.RepairCountsAccounts` | apps/server/src/main.rs:278-291 | the number the repair reports is that of the accounts it took a plan from |
| `BillingAudit.RepairTakesFromAPayer` | crates/louver-cloud/src/db.rs:1528-1544 | an account paying again for the plan of an old record is on the list, and the repair takes it |
| `BillingAudit.PayerLosesThePlan` | crates/louver-cloud/src/db.rs:1528-1544 | signing up, buying a plan, cancelling it and buying it again ends there: the record that is over is listed, and its repair takes the plan being paid for |
| `BillingAudit.CheckoutsEnd` | crates/louver-cloud/src/billing.rs:362-425 | a checkout opens one record that holds the account, and ends by a registration nobody else has or by a failure that lets the account try again |
| `BillingAudit.LiveGrowsExactly` | crates/louver-cloud/src/db.rs:1381-1383 | a record becomes live exactly by checkout, or by a first-seen payment or reversal |
| `BillingAudit.SecondArisesExactly` | crates/louver-cloud/src/db.rs:1378-1383 | an account with at most one live record still has at most one after a step exactly when the step is neither a checkout while one is live nor a first-seen payment or reversal of an ended record while another is |
| `BillingAudit.OneRegistrationExactly` | crates/louver-cloud/src/db.rs:1378-1383 | over whole runs: at most one at every moment exactly when no step is such |
| `BillingAudit.TwoCheckoutsAtOnce` | crates/louver-cloud/src/billing.rs:353-364 | two checkouts that both find no live record leave two |
| `Revenue.WeekLabelExactly` | crates/louver-cloud/src/admin.rs:643-648 | the week label is that week's Monday exactly on days that are not Mondays |
| `Revenue.WeekdaysFollow` | crates/louver-cloud/src/admin.rs:643-648 | the weekdays as the calendar has them |
| `Revenue.ReportConservesRevenue` | crates/louver-cloud/src/admin.rs:641-699 | for any ledger, range and grain, and by plan, buckets add up to the range total and count, and each bucket is new plus renewal |
| `Revenue.BucketHoldsItsDays` | crates/louver-cloud/src/admin.rs:641-699 | a bucket holds exactly the payments of its days in the range: one day, a month, or the seven days after its week label |
| `Revenue.PlanIsItsRecords` | crates/louver-cloud/src/admin.rs:674-684 | a plan's total is the sum over the records that bought it |
| `Revenue.RangesJoin` | crates/louver-cloud/src/admin.rs:582-591 | adjacent ranges add up |
| `Revenue.FirstPaymentIsEarliest` | crates/louver-cloud/src/admin.rs:649-653 | the first payment of a record exists exactly when it was paid, and none is earlier |
| `Revenue.FirstsAreActivations` | crates/louver-cloud/src/admin.rs:649-662 | over all time, first payments are one per activated record, and new money is what those were first charged |
| `Revenue.WholeReport` | crates/louver-cloud/src/admin.rs:641-699 | a report over everything: its new money is the first charge of each activated record, whatever it groups by |
| `Revenue.ReachableReport` | crates/louver-cloud/src/admin.rs:641-699 | the same in every reachable ledger, joined to revenue by record and to the count of activated records |
| `Plans.PlanStore.ActiveGrantPlan` | crates/louver-cloud/src/grants.rs:287-309 | the loop finds the best of the live grants' plans |
| `Plans.BestIsStrongest` | crates/louver-cloud/src/grants.rs:302-308 | the best is one of the candidates and none outranks it |
| `Plans.BestIgnoresOrder` | crates/louver-cloud/src/grants.rs:302-308 | row order and repetition do not matter up to equal rank |
| `Plans.FirstDifferenceDecides` | crates/louver-cloud/src/grants.rs:195-208 | which of two plans is stronger: the first difference among broadcasting, streams, storage, upload size and price |
| `Plans.AllowanceIsTheLargest` | crates/louver-cloud/src/db.rs:1249-1299 | the slots a subscription allows are the most any source in force allows, and it is active exactly when some source can broadcast |
| `Plans.ReportedAndEnforcedDifferExactly` | crates/louver-cloud/src/grants.rs:311-326 | when the plan whose other limits are enforced is not the plan reported |
| `Plans.NothingIsLoweredExactly` | crates/louver-cloud/src/grants.rs:199-208 | a grant can never lower a limit exactly when rank follows that limit in the catalogue |
| `Plans.StreamsAreNeverLowered` | crates/louver-cloud/src/grants.rs:199-208 | for streams it never does, in any catalogue |
| `Plans.OnlyStreamsAreSafe` | crates/louver-cloud/src/grants.rs:199-208 | streams are the only limit for which that is so in every catalogue |
| `GrantHistory.TermsAreWholeDays` | crates/louver-cloud/src/grants.rs:219-269 | which terms are accepted; each is a whole number of days from one to four hundred, and exactly the days asked for, by Seoul's calendar |
| `GrantHistory.Existing` | crates/louver-cloud/src/grants.rs:481-491 | the grant an extension is about: a live one of the account, if there is any, and none ends later |
| `GrantHistory.GrantStore.CreateGrants` | crates/louver-cloud/src/grants.rs:420-565 | a batch writes a row per target, or on any error nothing |
| `GrantHistory.GrantStore.ExtendGrant` | crates/louver-cloud/src/grants.rs:568-586 | a longer row replaces the old one, or the refusal |
| `GrantHistory.GrantStore.ChangeGrantPlan` | crates/louver-cloud/src/grants.rs:589-608 | a row on another plan replaces the old one, or the refusal |
| `GrantHistory.GrantStore.RevokeGrant` | crates/louver-cloud/src/grants.rs:676-694 | a grant is revoked once, with a reason |
| `GrantLaws.BatchIsAllOrNothing` | crates/louver-cloud/src/grants.rs:428-565 | which batches go through, and one outcome per distinct account |
| `GrantLaws.OutcomesNameTheirRows` | crates/louver-cloud/src/grants.rs:538-563 | what a batch reports for an account is the row it wrote for it, with its plan and end |
| `GrantLaws.GrantOneCovers` | crates/louver-cloud/src/grants.rs:493-554 | what an account is covered for after create, extend, reset or skip, at every instant |
| `GrantLaws.ExtendingLosesNothing` | crates/louver-cloud/src/grants.rs:513-537 | a batch of extensions takes coverage from no one |
| `GrantLaws.ExtensionHasNoGap` | crates/louver-cloud/src/grants.rs:513-537 | everyone extended is covered from now to the old end plus the term |
| `GrantLaws.SingleExtensionHasNoGap` | crates/louver-cloud/src/grants.rs:568-658 | extending one grant adds exactly the days after its old end |
| `GrantLaws.PlanChangeKeepsCoverage` | crates/louver-cloud/src/grants.rs:589-658 | moving a grant to another plan changes nobody's coverage |
| `GrantLaws.RevocationTakesExactly` | crates/louver-cloud/src/grants.rs:676-694 | a grant is taken back exactly with a reason, if it exists and was not before; the row stays, and coverage and plans are then those of the other rows |
| `GrantLaws.ReplacementsAreExact` | crates/louver-cloud/src/grants.rs:568-658 | what refuses an extension or a move, in order, and the row each writes |
| `GrantLaws.PlanChangeMoves` | crates/louver-cloud/src/grants.rs:589-658 | a move puts the new plan in force in place of the old |
| `GrantLaws.StepsAreTheOperations` | crates/louver-cloud/src/grants.rs:568-694 | a step of a run that nothing interrupts is the operation |
| `GrantLaws.ExtendingWeakensExactly` | crates/louver-cloud/src/grants.rs:513-537 | extending under a batch's plan weakens what an account is granted exactly when the extended plan outranked the batch's and every other live grant's |
| `GrantLaws.StrongestIsPassedOverExactly` | crates/louver-cloud/src/grants.rs:481-491 | the grant an extension is about is weaker than the plan in force exactly when another live grant, ending no later, outranks it |
| `GrantLaws.WeakerGrantIsExtended` | crates/louver-cloud/src/grants.rs:481-491 | of a strong grant and a weak one that ends later, the weak one is extended |
| `GrantLaws.HistoryIsAppendOnly` | crates/louver-cloud/src/grants.rs:614-658 | in every interleaving, replaced rows are revoked and point to a later row of their account, and written terms never change |
| `GrantLaws.Follow` | crates/louver-cloud/src/grants.rs:614-658 | following replacements ends, at a row of the same account that is not replaced |
| `GrantLaws.RevocationHoldsExactly` | crates/louver-cloud/src/grants.rs:568-694 | some run brings a revoked grant back exactly when a change to it was in progress as it was revoked; otherwise its row never changes again |
| `GrantLaws.RevokedGrantComesBack` | crates/louver-cloud/src/grants.rs:568-658 | what such a change restores: coverage for the term it read and the days it adds |
| `GrantLaws.ParallelExtensionsDoNotAdd` | crates/louver-cloud/src/grants.rs:568-658 | two extensions of one reading cover as the longer alone |
| `Ingest.Ingest.PrepareNow` | crates/louver-cloud/src/ingest.rs:315-556 | the pipeline in place takes the steps of the interleaved system in order; when it fails, and that a failure leaves files alone |
| `Ingest.Ingest.Prepare` | crates/louver-cloud/src/ingest.rs:297-313 | a busy media is left alone, a caller without a free slot waits with its claim, and claim and slot are back on every path that runs |
| `Ingest.Ingest.Resume` | crates/louver-cloud/src/ingest.rs:692-713 | the waiting caller's turn |
| `Ingest.Ingest.RetireReplacedPrepared` | crates/louver-cloud/src/ingest.rs:573-601 | the replaced file is written off, never the source or the new one, and nothing is removed |
| `Ingest.AloneIsActs` | crates/louver-cloud/src/ingest.rs:315-556 | a worker nobody interrupts does to the store what the pipeline does |
| `PreparationInv.NextKeepsInv` | crates/louver-cloud/src/ingest.rs:297-730 | every step, panic and crash keeps slots, claims, pointers, shapes and what each thread relies on |
| `PreparationLaws.PointersAlwaysExist` | crates/louver-cloud/src/ingest.rs:549-601 | in every reachable state each pointer names a file that exists, and no two media share one |
| `PreparationLaws.EveryTurnIsReturned` | crates/louver-cloud/src/ingest.rs:692-730 | free and held slots add up, no media is prepared twice at once, and when no thread is left all is returned |
| `PreparationLaws.ReadyRowsAreDescribed` | crates/louver-cloud/src/ingest.rs:526-554 | in every reachable store a ready row describes its file unless its last output could not be probed |
| `PreparationLaws.UnreadOutputIsDescribedExactly` | crates/louver-cloud/src/ingest.rs:543-554 | an output that cannot be probed is published; the ready row describes a first one exactly if it was planned canonical, a later one exactly if it has the mode and signature recorded before |
| `PreparationLaws.FailureIsReported` | crates/louver-cloud/src/ingest.rs:297-313 | a preparation that fails at any stage gives claim and slot back, leaves files and pointers and marks its row |
| `PreparationLaws.WriteOffSparesTheSource` | crates/louver-cloud/src/ingest.rs:573-601 | what is written off is the file pointed at before, never the source nor the new one |
| `PreparationLaws.SourcePlayedAsItIs` | crates/louver-cloud/src/ingest.rs:366-395 | a source played as it is becomes its own prepared file and is not written off; a pinned one never is |
| `PreparationLaws.DeletionTakesBoth` | crates/louver-cloud/src/db.rs:2066-2088 | a deletion takes the row and every file it named, and no other |
| `PreparationLaws.DeletingIsSafeExactly` | crates/louver-cloud/src/media_audit.rs:334-348 | deleting an unreferenced file never breaks a pointer exactly when no upload or preparation is about to point at it |
| `AuditedDeletion.SafeFilesMayGo` | crates/louver-cloud/src/media_audit.rs:263-348 | rows read, files found and files deleted at three moments of a run: deleting any set of files called safe breaks no pointer if each was stored, and not becoming a pointer, when the rows were read |
| `AuditedDeletion.AuditIsRightExactly` | crates/louver-cloud/src/media_audit.rs:263-348 | and exactly then, for a key no row named |
| `AuditedDeletion.UploadedDuringTheWalk` | crates/louver-cloud/src/media_audit.rs:267-310 | a file uploaded and recorded between the reading of the rows and the walk is called safe while a row points at it |
| `PreparationLaws.AnOldAuditStaysRight` | crates/louver-cloud/src/media_audit.rs:263-348 | a file that was nobody's and on its way to nobody when audited may be deleted at any later time |
| `PreparationLaws.WrittenOffIsNotYetDeletable` | crates/louver-cloud/src/ingest.rs:549-556 | a crash between writing a file off and moving the pointer leaves it pointed at, present and not deletable |
| `Playlists.MediaTable.EnsurePlaylistCompatible` | crates/louver-cloud/src/ingest.rs:632-674 | the loop pins and queues exactly the native media of a playlist that cannot be joined |
| `Playlists.MediaTable.PreparedItemsFor` | crates/louver-cloud/src/db.rs:2593-2610 | the nested loops expand the enabled items in order |
| `Playlists.NothingQueuedIffJoinable` | crates/louver-cloud/src/db.rs:2025-2045 | nothing is queued exactly when the start gate accepts |
| `Playlists.MixedPlaylistsExactly` | crates/louver-cloud/src/db.rs:2014-2045 | the gate refuses, and an edit queues, exactly if two items are on and one of the media is native beside a canonical one or one of another or no recorded shape; what is queued are the native ones, pinned and closed |
| `Playlists.PlaysOrSaysWhy` | crates/louver-cloud/src/db.rs:2593-2610 | what a broadcast plays, or the reason of the first item in the way |
| `Playlists.PlaysExactly` | crates/louver-cloud/src/db.rs:2091-2127 | a playlist plays exactly when every enabled item is ready |
| `Playlists.ExpandExactly` | crates/louver-cloud/src/db.rs:2593-2610 | what plays is those items' files, all of them, and how many entries in all |
| `Playlists.PlaysInOrder` | crates/louver-cloud/src/db.rs:2593-2610 | every enabled item plays at its place in the order, once for each repeat |
| `Playlists.BothGatesMakeOneShape` | crates/louver-cloud/src/db.rs:1993-2045 | both gates passed, over rows that describe their files, the files are all canonical or all of one signature |
| `Playlists.MisdescribedPassesBothGates` | crates/louver-cloud/src/db.rs:2005-2010 | a native file whose row reads as canonical passes both gates beside a canonical one |
| `Misdescribed.MisdescribedIsPlayed` | crates/louver-cloud/src/ingest.rs:526-554 | a run of two uploads and two preparations, the first output unread, after which such a playlist passes both gates |
| `Convergence.StartedPlaylistsCanBeJoined` | crates/louver-cloud/src/db.rs:2014-2045 | after any run in which every output could be probed, what both gates let through can be joined |
| `Convergence.SettledForGood` | crates/louver-cloud/src/db.rs:1975-1987 | once pinned and canonical with no native plan in flight, a media stays canonical in every run |
| `Convergence.PreparationSucceeds` | crates/louver-cloud/src/ingest.rs:297-556 | a pinned media's preparation, uninterrupted, ends ready, canonical and described, all else as it was |
| `Convergence.PinnedMediaSettles` | crates/louver-cloud/src/ingest.rs:632-674 | a pinned media with no native plan in flight stays canonical from its first successful preparation on, in every interleaving |
| `Convergence.ItemsConverge` | crates/louver-cloud/src/ingest.rs:632-674 | items that are so prepared, settled or left alone can be joined at the end of any run |
| `Convergence.PlaylistConverges` | crates/louver-cloud/src/ingest.rs:632-674 | a playlist that could not be joined, its native items pinned with no native plan in flight: at the end of every run in which each was prepared successfully it is all canonical |
| `Convergence.PlaylistCanConverge` | crates/louver-cloud/src/ingest.rs:632-674 | and there is such a run, ending with all that was queued ready |
| `Convergence.FewerRemain` | crates/louver-cloud/src/ingest.rs:650-672 | each success leaves fewer native items |
| `InFlight.PinIsOvertakenExactly` | crates/louver-cloud/src/ingest.rs:299-304 | a pinned media can, with every output read, end ready and native exactly when a worker had an unpinned plan, a native output or a recorded native shape at the pin |
| `InFlight.QueuedInVainExactly` | crates/louver-cloud/src/ingest.rs:659-670 | the queued preparation comes to nothing exactly when its claim was held by a thread past recording its result |
| `InFlight.StuckPreparing` | crates/louver-cloud/src/ingest.rs:659-670 | one that had just recorded its result leaves the row preparing with nobody at it |
| `InFlight.StuckForGood` | crates/louver-cloud/src/ingest.rs:659-670 | and so it stays until someone asks for a preparation |
| `MediaAudit.Audit` | crates/louver-cloud/src/media_audit.rs:296-364 | the loops classify every file against every row and total them |
| `MediaAudit.IndexedExactly` | crates/louver-cloud/src/media_audit.rs:293-303 | the index knows a key exactly when a row names it |
| `MediaAudit.SafeExactly` | crates/louver-cloud/src/media_audit.rs:311-348 | what "safe to delete" and "retired" mean, both ways |
| `MediaAudit.RolesExactly` | crates/louver-cloud/src/media_audit.rs:293-340 | what each file is called, by the last row that names it or the lack of one |
| `MediaAudit.TotalsByRole` | crates/louver-cloud/src/media_audit.rs:308-364 | each total is that of its own roles |
| `MediaAudit.SafeIsUnreferenced` | crates/louver-cloud/src/media_audit.rs:340-348 | no file the audit calls safe is one a row of that store points at |
| `MediaAudit.TotalsConserve` | crates/louver-cloud/src/media_audit.rs:308-348 | every byte is counted under one role, and only retired or orphaned ones are reclaimable |
| `Throttling.Throttle.Check` | apps/server/src/throttle.rs:44-60 | one attempt, with the clean-up and the pruning, is the step on values |
| `Throttling.ThrottleFollowsRule` | apps/server/src/throttle.rs:44-60 | over every run the limiter that forgets answers every call as the rule over the full history does |
| `Throttling.RefusalsWait` | apps/server/src/throttle.rs:54-58 | whatever the clocks say, a refusal waits until the oldest counted attempt is a window old, and no longer than a window |
| `Throttling.ForgetsTheIdle` | apps/server/src/throttle.rs:48-50 | other callers are kept up to 4096, and beyond that those with an attempt in the window |
| `Throttling.AtMostTenPerWindow` | apps/server/src/throttle.rs:54-59 | any 60-second window of any run holds at most ten accepted attempts per caller |
| `Throttling.WaitIsExact` | apps/server/src/throttle.rs:54-58 | the wait is exact under the rule: refused before it, accepted at it |
| `Throttling.RetryHintIsExact` | apps/server/src/throttle.rs:54-58 | the same of the limiter in any reached state, whatever refused attempts come between |
| `Throttling.CallersAreIndependent` | apps/server/src/throttle.rs:46-54 | the answers a caller gets are those it would get alone |
| `Throttling.TenPerSpanExactly` | apps/server/src/throttle.rs:44-60 | if a clock reading may lag behind those of earlier lock holders by a given time, every span of a given length of every run holds at most ten accepted attempts per caller exactly when it is no longer than the window less that time |
| `Throttling.LateLockersBound` | apps/server/src/throttle.rs:45-59 | its bound, for one run and span |
| `Throttling.LateLockersExceedTheBound` | apps/server/src/throttle.rs:45-46 | with the lock taken a whole window out of clock order, nineteen attempts fit one |
| `FormCodec.UrlEncode` | crates/louver-cloud/src/billing.rs:272-282 | the loop is the encoding on values |
| `FormCodec.PercentDecode` | crates/louver-cloud/src/billing.rs:238-269 | the loop is the decoding on values, including where it would panic |
| `FormCodec.DecodeEncoded` | crates/louver-cloud/src/billing.rs:238-282 | decoding what was encoded gives it back, for all bytes |
| `FormCodec.BytesAreWritten` | crates/louver-cloud/src/billing.rs:272-282 | which characters travel as they are, and the code of every other |
| `FormCodec.EscapesAreRead` | crates/louver-cloud/src/billing.rs:238-269 | escapes in either case, after a plus, and malformed ones that stay as they are |
| `FormCodec.OtherBytesAreRead` | crates/louver-cloud/src/billing.rs:238-269 | every other byte |
| `FormCodec.FormsAreWritten` | crates/louver-cloud/src/billing.rs:170-175 | names and values joined by an equals sign, pairs by an ampersand |
| `FormCodec.PaddingIsIgnored` | crates/louver-cloud/src/billing.rs:224-235 | white space around a body and question marks before it change nothing |
| `FormCodec.FormRoundTrip` | crates/louver-cloud/src/billing.rs:171-235 | reading a written form gives its pairs, the last of repeated keys winning, whatever they hold |
| `FormCodec.AsciiAlwaysDecodes` | crates/louver-cloud/src/billing.rs:238-269 | ASCII bodies always decode |
| `FormCodec.DecodingStopsExactly` | crates/louver-cloud/src/billing.rs:238-269 | the decoder panics exactly when a percent sign stands three bytes before the inside of a character |
| `FormCodec.ParsingStopsExactly` | crates/louver-cloud/src/billing.rs:224-269 | reading a body panics exactly when a key or a value between its ampersands has one |
| `Cameras.CameraTable.ImportList` | crates/louver-cloud/src/cctv.rs:834-859 | the loop imports line by line; a list that is too long is refused whole |
| `Cameras.CameraTable.ImportRow` | crates/louver-cloud/src/cctv.rs:861-915 | address first, then the newest row of the name, else a new row |
| `Cameras.ImportKeepsUrlsUnique` | crates/louver-cloud/src/cctv.rs:861-915 | no import ever puts one address in two rows |
| `Cameras.ImportInsertsExactly` | crates/louver-cloud/src/cctv.rs:861-915 | a line is there afterwards and unchecked, and adds a row exactly when neither its address nor its camera was known |
| `Cameras.ImportWritesOneRow` | crates/louver-cloud/src/cctv.rs:883-915 | the row a line writes, with its old id and age or new ones; no other changes |
| `Cameras.ReimportSafeExactly` | crates/louver-cloud/src/cctv.rs:831-834 | every list made of some cameras and addresses, in any order and with any repeats, can be imported again into every catalogue without adding a row, exactly when no camera with two addresses shares one with another camera |
| `Cameras.ReimportAddsNothing` | crates/louver-cloud/src/cctv.rs:831-834 | so a list whose own cameras and addresses are like that adds none |
| `Cameras.ReimportCanInsert` | crates/louver-cloud/src/cctv.rs:831-834 | a list of three lines that adds a row when imported again |
| `Cameras.DedupeKeepsNewest` | crates/louver-cloud/src/cctv.rs:1015-1048 | one row per camera is left, its newest, and a second pass removes nothing |
| `Cameras.AddressesExactly` | crates/louver-cloud/src/cctv.rs:950-983 | the address of the camera picked, if its row is there, in use and has one, else the last one used; and what the refresh lists |
| `Cameras.RefreshListsExactly` | crates/louver-cloud/src/cctv.rs:950-983 | a running broadcast is listed exactly when the address it should send differs from its snapshot, and with that address |
| `Cameras.RefreshOnceIsEnough` | crates/louver-cloud/src/cctv.rs:958-996 | adopting everything listed empties the list and leaves what should be sent as it was |

## Left out

- HTTP handlers, sessions, SSE, OAuth, the React client, FFmpeg and probing, YouTube, the scheduler and the broadcast manager: an encoder's plan, mode, signature and output are inputs here. `crates/louver-core` and `manager.rs` are not part of this model.
- What the planner and encoder promise is taken as given: a pinned media is planned canonical, the canonical conversion makes interchangeable files, and new object keys and row ids are fresh.
- Cryptography, file locks, sockets and process inspection.
- SQLite: rows, unique keys, foreign keys and atomic transactions are taken as given. Statements that a function makes under separate locks are separate steps where another step between them could matter (plan and claim, note and grant, read and supersede, delete and unlink, audited rows and audited files); the reads inside one report or repair of one row are one step.
- Columns that are only shown: `last_paid_at`, `current_period_end`, `started_at`, labels, notes and messages; with them the month arithmetic of `billing.rs:694-750`.
- Storage quotas as a global bound: preparation adds to what an upload was checked for, so only the check at acceptance holds; it is one comparison. Accounting drift of the storage audit, and scratch files.
- `replace_items` and the other writes of playlist rows: playlists are given as they are stored.
- Text is ASCII white space and bytes; Unicode white space and the replacement of invalid UTF-8 are not modelled. Camera addresses and names arrive checked or refused.
- Limits are whole numbers without a machine width; money and counts in the service stay far below 64 bits. `Text.ParseI64` does bound what a price may be.
- GrantHistory.Existing: of two live grants that end at the same second the model extends the earlier row; the query leaves it open.
- MediaAudit.Audit: lists the files in the order they were found; the report sorts them by size.
- Playlists.BothGatesMakeOneShape: both gates read one state of the rows; in the service they are two reads a moment apart.
- BillingAudit.RepairEmptiesTheList: nobody else writes while the repair runs.

# Booking cancellation, refunds and their surroundings

A Dafny model of how a booking of the activity marketplace is cancelled and paid back, and of four smaller pieces of the same
backend that work on the same principles.

* **The booking store** (`Store`, `Stock`, `Ledger`) holds bookings, capacity (sessions, holds, allocations), money
  (cancellations, refunds, keyed financial events) and the outbox. Every transaction of agents, vendors, administrators, finance
  and the expiry sweep is one atomic step; `Run` strings steps together in any order. `CancellationService.Service` is the
  cancellation service itself, updating its tables row by row with a rollback on error, and is proved to do what the steps say.
* **Whole runs** (`Runs`, `History`, `Lifecycle`, `Capacity`, `Outcomes`, `Effects`, `Races`, `Vendors`, `Theorems`, `Amounts`): what holds after any
  interleaving, exactly when each transaction commits and what it then writes, who wins a race, and why a preview cannot surprise.
* **Runs that go wrong** (`LostHold`, `Witnesses`, `SweepWitnesses`): for each property the code does not meet, a short run from an empty
  store that shows it, beside the exact condition stated elsewhere.
* **Terms**: calendar arithmetic (`Calendar`), the charge split (`Charges`), the policy loader and matcher (`Policy`), canonical
  JSON and its fingerprints (`Canonical`, `Fingerprint`, `RequestFingerprint`, `Terms`).
* **The expiry sweep** (`Expiry`): one list, one locked transaction per booking, anything in between.
* **Maker and checker** (`AgentAccounts`, `Guardrails`): wallet credits, agent terms and versioned guardrails.
* **The identifier swap** (`IdentifierRepair`): two loops under a uniqueness constraint.

Amounts are whole minor units. A step carries all it takes from outside: the clock, the local date, the ids the database draws.
A transaction commits exactly when its body returns; an aborted one leaves the store as it was.

## What the proofs found

* A pending booking always has its active hold **except** after a failover that reuses its reference key: `createHold` then hands
  back an old, released hold while the current one is let go. The booking can no longer be confirmed, rejected or cancelled
  (`Capacity.RunHeld` gives the exact condition, `LostHold.PendingWithoutHold` a run). Other bookings do not suffer: the commit
  conditions in `Outcomes` ask only for the hold of the booking at hand.
* A failover to an instant supplier confirms the booking without a BOOKING_CONFIRMED event; every other confirmation writes one
  (`Theorems.ConfirmationLoggedExactly`, with a run in `Witnesses.ConfirmedInSilence`).
* A failover that absorbs a price gap leaves the booking with its old amount, while a later cancellation is split from the new
  one (`Amounts.RunAmounts`); more than the booking amount is refunded exactly when the charge is smaller than the gap
  (`Amounts.RefundExceedsExactly`, with a run in `Witnesses.RefundBeyondAmount`).
* The fingerprint of a pending withdrawal does not contain the day: accepted on a later day it is filed with other days before
  service than were shown (`Races.NoSurpriseTerms` gives the exact condition, `Witnesses.FiledOneDayShort` a run). Nothing is
  charged then.
* The sweep notes a booking as expired before its transaction commits. When the commit fails the booking is both reported as
  expired and listed as skipped (`Expiry.NoteIsTrueExactly`, with a run in `SweepWitnesses.ReportedAndStillDue`).
* A failover on a server whose clock is behind the sweep's can give a booking a deadline the sweep's time has already passed; after
  the booking's own turn this sweep does not come back to it (`Expiry.NothingDueIsLeft` gives the exact condition,
  `SweepWitnesses.ListedAndLeftDue` a run).
* The fingerprint of a calculation does not contain the currency. It is protected only through the booking version, which every
  change raises (`Races.NoSurpriseTerms` needs the run, not only the fingerprint).
* CANCELLED_PARTIAL_REFUND is declared but never reached (`Theorems.MoneyOnEveryRun`).

## Assumptions

* Event ids contain no colon (`EventKeys.KeyTextInjective`); object keys are compared by a total order in which only equal keys
  are equal, and each object has one value per key.
* A hash is identified with the text that is hashed.
* Booking amounts have at most two decimals and decimal operations are exact; rounding is half away from zero.
* `Outcomes` asks that the ids drawn by the database are unused; `IdentifierRepair` asks the same of the random codes.
* Clocks are inputs and nothing is assumed about them; only `Expiry.TimelyOthersLeaveNothing` asks that those read by failovers
  after a booking's turn have reached the sweep's time.
* A run starts before the first canonical booking (`Initial`), with any legacy bookings and any session capacity.

## Model

| member | source | states |
|---|---|---|
| `Runs.StepKeeps` | activity-saas-backend/src/bookings/cancellation.service.ts:39-205 | any step of any party keeps the store valid: counters true to their rows, capacity owned by the right bookings, refund and cancellation in lockstep, exact event log, truthful outbox, bookings and cancellations linked |
| `Runs.RunKeeps` | activity-saas-backend/src/bookings/cancellation.service.ts:39-205 | the same over every finite run and interleaving |
| `Theorems.MoneyOnEveryRun` | activity-saas-backend/src/bookings/cancellation.service.ts:71-197 | on every run REFUND_PENDING, REFUNDED and REFUND_FAILED hold exactly when the one refund is PENDING, CONFIRMED or FAILED for the whole positive entitlement; the other two states have no refund; charge plus entitlement is the booking amount unless finance has still to decide |
| `Theorems.PaidOnceOnEveryRun` | activity-saas-backend/src/bookings/cancellation.service.ts:177-205 | the log pays a cancellation its entitlement once it is refunded and nothing before, however often the payout failed and was retried |
| `Theorems.FailuresCountedOnEveryRun` | activity-saas-backend/src/bookings/cancellation.service.ts:177-205 | REFUND_FAILED events are exactly the failures reported, and the refund version alone tells their number |
| `Theorems.LogExactOnEveryRun` | activity-saas-backend/src/bookings/cancellation.service.ts:198-204 | an event stands under a key if and only if the tables say it should have been written, and then carries their booking, cancellation, currency, amount, status, reason and reference; so no upsert ever dropped or blurred one |
| `Theorems.OneConfirmationOnEveryRun` | activity-saas-backend/src/bookings/cancellation.service.ts:186-205 | at most one REFUND_CONFIRMED event exists per refund |
| `Theorems.ReplayOnEveryRun` | activity-saas-backend/src/bookings/cancellation.service.ts:79-197 | replaying the outbox from its beginning gives every booking the financial state, resolved split, refund status, refund amount and bank reference its tables hold |
| `Theorems.CapacityOnEveryRun` | activity-saas-backend/src/inventory/inventory-reservation.service.ts:29-72 | held and confirmed counters are the sums over live holds and allocations, none is negative, and blocked, held and confirmed never exceed the total |
| `Theorems.OwnershipOnEveryRun` | activity-saas-backend/src/bookings/cancellation.service.ts:61-70 | a booking is CANCELLED if and only if it has a cancellation; only pending bookings own an active hold, live ones own exactly one confirmed allocation and all others none |
| `Theorems.HoldLeavesOnce` | activity-saas-backend/src/inventory/inventory-reservation.service.ts:46-53 | along any run a hold leaves ACTIVE at most once |
| `Theorems.AllocationLeavesOnce` | activity-saas-backend/src/inventory/inventory-reservation.service.ts:60-72 | along any run an allocation leaves CONFIRMED at most once |
| `Theorems.FailoverConfirmsSilently` | activity-saas-backend/src/bookings/bookings.service.ts:532-541 | a failover to an instant supplier confirms the booking and writes no BOOKING_CONFIRMED event |
| `Theorems.ConfirmationLoggedExactly` | activity-saas-backend/src/bookings/bookings.service.ts:363-540 | a booking that becomes confirmed gets its BOOKING_CONFIRMED event if and only if it was not a failover that confirmed it |
| `Lifecycle.StepOutcome` | activity-saas-backend/src/bookings/cancellation.service.ts:50-117 | whatever a step changes, it moves one booking along its lifecycle, or makes one, or touches none; no other booking changes its record or loses or gains its hold |
| `Lifecycle.StepLegal` | activity-saas-backend/src/bookings/cancellation.service.ts:50-117 | a step changes an existing booking only along its lifecycle, and only for its own agent, its own vendor, an administrator or its own deadline |
| `History.StepGrows` | activity-saas-backend/src/bookings/cancellation.service.ts:39-205 | a step never rewrites the past: filed facts, settled splits, confirmed refunds, events, final bookings and capacity that was let go stay as they are, and a changed booking has a higher version |
| `History.RunGrows` | activity-saas-backend/src/bookings/cancellation.service.ts:39-205 | the same over every run |
| `Races.DuplicateTold` | activity-saas-backend/src/bookings/cancellation.service.ts:45-47 | under a repeated key the stored fingerprint tells the repeat from a different request: same category and trimmed reason return the cancellation, anything else is refused as a reused key |
| `Races.PreReadTold` | activity-saas-backend/src/bookings/cancellation.service.ts:46-47 | what the unlocked read answers for a cancelled booking, in all cases |
| `Races.FirstWriterWinsForAgents` | activity-saas-backend/src/bookings/cancellation.service.ts:45-84 | read and transaction of an agent at any two points of any run: once the booking is cancelled the call changes nothing and is answered with that cancellation, or with a reused key exactly when its read saw the key used for another request |
| `Races.FirstWriterWinsForOperations` | activity-saas-backend/src/bookings/cancellation.service.ts:93-101 | the same for vendors and administrators, who always get the existing cancellation |
| `Races.RacersAgree` | activity-saas-backend/src/bookings/cancellation.service.ts:53-101 | the first cancellation of a booking and the cancelled booking itself never change again, so all callers that succeed get the same one |
| `Races.NoSurpriseTerms` | activity-saas-backend/src/bookings/cancellation.service.ts:57-72 | preview, any run, then the first cancellation under the previewed fingerprint: the booking record is unchanged and rule, policy, charge, refund, amount, currency, state and time zone are those shown; so are the days before service, if and only if the booking was confirmed or preview and withdrawal fell on one local day |
| `Witnesses.FiledOneDayShort` | activity-saas-backend/src/bookings/cancellation.service.ts:216 | a run from an empty store: a pending withdrawal previewed on any day and accepted on the next is filed with one day less than was shown |
| `Races.OtherBookingsTermsRefused` | activity-saas-backend/src/bookings/cancellation.service.ts:57-60 | terms previewed for one booking never cancel another |
| `Races.ConfirmedIsFinal` | activity-saas-backend/src/bookings/cancellation.service.ts:172-175 | once a refund is confirmed, after any run, the same reference by anybody is answered without a change, another one is refused as a different reference, and failure and retry are refused |
| `Races.FiledAsAsked` | activity-saas-backend/src/bookings/cancellation.service.ts:72-109 | a first cancellation is filed with its caller, tenant, category, trimmed reason, key, time and days; an operational one with no charge, no entitlement and the booking amount, left to finance |
| `Vendors.StepTold` | activity-saas-backend/src/bookings/cancellation.service.ts:198-204 | every financial event keeps carrying the vendor its booking has |
| `Vendors.RunTold` | activity-saas-backend/src/bookings/cancellation.service.ts:198-204 | the same over every run, failovers included |
| `Outcomes.AgentTxCommitsExactly` | activity-saas-backend/src/bookings/cancellation.service.ts:51-77 | in any valid store with fresh ids the agent transaction commits if and only if the booking is the agent's and is cancelled already, or is cancellable on exactly the expected terms and, if pending, has its hold; the one capacity error left is the missing hold, and only of this booking; ambiguity, missing allocations and ledger conflicts never occur |
| `Outcomes.OperationalTxCommitsExactly` | activity-saas-backend/src/bookings/cancellation.service.ts:97-113 | the same for vendors and administrators, who need no terms: commit if and only if the booking is theirs to touch, canonical, and cancelled already or cancellable, not negative in amount and, if pending, held |
| `Effects.ConfirmedCancellationTold` | activity-saas-backend/src/bookings/cancellation.service.ts:57-77 | the agent's cancellation of a confirmed booking is refused as started if and only if the service has a start and the clock has reached it, as not covered if and only if it has not started and no band of the policy contains the days left, and otherwise files the band that does, its charge, the rest as entitlement, the policy, amount and currency of the economics, and the zone |
| `Effects.UndecidedTold` | activity-saas-backend/src/bookings/cancellation.service.ts:97-109 | a pending booking withdrawn by its agent, and anything cancelled by its vendor or an administrator, is filed with nothing charged and nothing owed, on the booking's own amount, currency and zone, under no rule and no policy, left to finance |
| `Effects.OnlyProperRequestsAct` | activity-saas-backend/src/bookings/cancellation.service.ts:40-44 | an agent's request is let through if and only if it comes from a travel agent of some tenant with a key and a reason that are not blank and the terms acknowledged; an operational one if and only if its reason is not blank and a vendor's comes from a vendor of some tenant |
| `Effects.RequestPrinted` | activity-saas-backend/src/bookings/cancellation.service.ts:224 | the stored fingerprint is that of booking, trimmed key, category and trimmed reason; an operational request without a key is printed under the word operational |
| `Effects.ResolutionTold` | activity-saas-backend/src/bookings/cancellation.service.ts:140-161 | a resolution files the parsed charge as charge and the parsed refund as entitlement with the trimmed reason; with nothing to refund the state is no refund and there is none, else one pending refund of exactly that amount is opened; event and messages say the same, and no other row changes |
| `Effects.PayoutTold` | activity-saas-backend/src/bookings/cancellation.service.ts:167-192 | a confirmation, failure or retry that changes anything moves the refund and its cancellation together under the next version, with the trimmed reference or reason, logs an outcome once under that version, and tells it; no other row changes |
| `Effects.DeadlineTold` | activity-saas-backend/src/bookings/bookings.service.ts:346-427 | a pending booking, for a vendor or under manual review, expires if and only if its deadline has come, by the sweep or by a decision that comes upon it; before it the decision stands |
| `Effects.CreationTold` | activity-saas-backend/src/bookings/bookings.service.ts:197-213 | a new booking has the quote's amount and currency, the status of its mode and, unless instant, the deadline its minutes give |
| `Effects.FailoverTold` | activity-saas-backend/src/bookings/bookings.service.ts:527-535 | a failed-over booking is the other supplier's, on that supplier's terms, day and zone, at the lower of the two amounts, with a new deadline unless confirmed at once; the agent stays |
| `Outcomes.ResolveTxCommitsExactly` | activity-saas-backend/src/bookings/cancellation.service.ts:139-159 | finance resolves a cancellation if and only if it is pending, both amounts parse and they add up to the booking amount; FINANCIAL_STATE_ALREADY_RESOLVED never occurs |
| `Outcomes.RefundTxCommitsExactly` | activity-saas-backend/src/bookings/cancellation.service.ts:167-189 | a refund transition is refused only for blank text, a missing refund or its own status; REFUND_RETRY_STATE_MISMATCH never occurs |
| `Outcomes.ConfirmTxCommitsExactly` | activity-saas-backend/src/bookings/bookings.service.ts:346-426 | in any valid store a confirmation commits if and only if its decider may decide and either the deadline has passed, when it expires the booking, or this booking has its hold, the slot is still open and the clock has not passed the deadline; the missing hold is an error only of a booking that lost it |
| `Outcomes.GivesBack` | activity-saas-backend/src/bookings/cancellation.service.ts:61-70 | a cancellable booking that is held always gives back exactly one allocation or hold |
| `Capacity.StepHeld` | activity-saas-backend/src/bookings/bookings.service.ts:527-535 | a step leaves every pending booking with its active hold if and only if it is not a failover under a reference key the booking has used before |
| `Capacity.RunHeld` | activity-saas-backend/src/bookings/bookings.service.ts:527-535 | over a whole run every pending booking has its hold at all times if and only if no failover reuses a key |
| `Capacity.CannotCancelWithoutHold` | activity-saas-backend/src/bookings/cancellation.service.ts:67-107 | without its hold a pending booking cannot be cancelled by anybody: vendor and administrator hear the missing hold, the agent hears it on the right terms and changed terms otherwise, a stranger hears that there is no such booking |
| `Capacity.CannotDecideWithoutHold` | activity-saas-backend/src/bookings/bookings.service.ts:357-392 | nor confirmed or rejected before its deadline, with the exact error in each case |
| `Capacity.OnlyExpiryFrees` | activity-saas-backend/src/bookings/bookings.service.ts:429 | its deadline still expires it |
| `LostHold.PendingWithoutHold` | activity-saas-backend/src/bookings/bookings.service.ts:527-535 | a concrete run: a booking that changes from supplier A to B, back to A and again to B is left pending without a hold |
| `Amounts.StepAmounts` | activity-saas-backend/src/bookings/bookings.service.ts:531-538 | booking amount, economics amount and cancellation amount stay one number if and only if no failover absorbs a price gap |
| `Amounts.RunAmounts` | activity-saas-backend/src/bookings/bookings.service.ts:531-538 | over a whole run they stay one number at all times if and only if no failover absorbs a gap |
| `Amounts.RefundExceedsExactly` | activity-saas-backend/src/bookings/cancellation.service.ts:57-75 | in any valid store a first cancellation by the agent entitles to more than the booking's amount if and only if the booking is confirmed, its economics are dearer than its amount and the rule of the day charges less than that gap, all of it on record before the call |
| `Amounts.RefundWithinAmount` | activity-saas-backend/src/bookings/cancellation.service.ts:213-216 | on every run that absorbs no gap no cancellation of any kind entitles to more than its booking's amount |
| `Witnesses.RefundBeyondAmount` | activity-saas-backend/src/bookings/cancellation.service.ts:213 | a run from an empty store: asked for at 100, taken over at 150, cancelled free of charge, 150 are owed back |
| `Witnesses.ConfirmedInSilence` | activity-saas-backend/src/bookings/bookings.service.ts:530-541 | a run from an empty store: a rejection fails over to an instant supplier, the booking is CONFIRMED, no BOOKING_CONFIRMED event exists and the amounts no longer agree |
| `CancellationService.Service.AgentCancel` | activity-saas-backend/src/bookings/cancellation.service.ts:39-87 | for every input the whole call ends in exactly the tables and the answer of AgentCall, the specification the race theorems are about |
| `CancellationService.Service.AgentCancelAfterRead` | activity-saas-backend/src/bookings/cancellation.service.ts:47-86 | whatever earlier state the read came from, the rest of the call ends in the tables and answer AgentCall gives for that read, recovery read included |
| `CancellationService.Service.AgentDuplicateRead` | activity-saas-backend/src/bookings/cancellation.service.ts:46-47 | the unlocked read answers by key and tenant: nothing found, the earlier cancellation, or a reused key; it changes nothing |
| `CancellationService.Service.AgentTransaction` | activity-saas-backend/src/bookings/cancellation.service.ts:50-81 | commits exactly when AgentTx does and then leaves exactly its state; on any error every write made so far is taken back |
| `CancellationService.Service.OperationalCancel` | activity-saas-backend/src/bookings/cancellation.service.ts:89-119 | the same for the whole vendor or administrator call, against OperationalCall |
| `CancellationService.Service.OperationalTransaction` | activity-saas-backend/src/bookings/cancellation.service.ts:96-117 | the same for its transaction, against OperationalTx |
| `CancellationService.Service.CloseBooking` | activity-saas-backend/src/bookings/cancellation.service.ts:61-79 | the writes in the source order amount to the one atomic Close of the steps, with the first error that any of them meets |
| `CancellationService.Service.GiveBackCapacity` | activity-saas-backend/src/bookings/cancellation.service.ts:61-70 | gives back the only allocation or hold there is, and refuses none or several without writing |
| `CancellationService.Service.CreateCancellation` | activity-saas-backend/src/bookings/cancellation.service.ts:72 | adds the row and its unique index entry, or reports the violated constraint and writes nothing |
| `CancellationService.Service.CreateRefund` | activity-saas-backend/src/bookings/cancellation.service.ts:197 | adds refund, index entry, event and message together; not for a zero amount nor a second refund |
| `CancellationService.Service.AddFinancialEvent` | activity-saas-backend/src/bookings/cancellation.service.ts:198-205 | an event already under the key is left as it is |
| `CancellationService.Service.ResolveFinancial` | activity-saas-backend/src/bookings/cancellation.service.ts:139-165 | the whole resolution call ends as ResolveTx says, all or nothing |
| `CancellationService.Service.ResolveLocked` | activity-saas-backend/src/bookings/cancellation.service.ts:147-154 | its checks refuse in the order of the source and leave everything as it was |
| `CancellationService.Service.WriteResolution` | activity-saas-backend/src/bookings/cancellation.service.ts:156-161 | its writes amount to Resolve |
| `CancellationService.Service.RefundTransition` | activity-saas-backend/src/bookings/cancellation.service.ts:167-195 | confirm, fail and retry end as RefundTx says, repeats without a write, errors with everything taken back |
| `CancellationService.Service.RetryPayout` | activity-saas-backend/src/bookings/cancellation.service.ts:177-184 | a retry moves refund and cancellation together or reports the mismatch, and writes no event |
| `CancellationService.Service.SettlePayout` | activity-saas-backend/src/bookings/cancellation.service.ts:185-192 | a confirmation or failure moves both rows and logs it under the next version |
| `CancellationService.Service.FreeAllocation` | activity-saas-backend/src/inventory/inventory-reservation.service.ts:60-72 | frees the allocation and its counter together; releasing it again changes nothing |
| `CancellationService.Service.FreeHold` | activity-saas-backend/src/inventory/inventory-reservation.service.ts:46 | lets a hold and its counter go together; a hold no longer active is left alone |
| `StoreInvariant.AgentTxKeeps` | activity-saas-backend/src/bookings/cancellation.service.ts:50-81 | the agent transaction keeps the store valid and touches no other booking's hold |
| `StoreInvariant.OperationalTxKeeps` | activity-saas-backend/src/bookings/cancellation.service.ts:96-117 | the same for the operational transaction |
| `StoreInvariant.ResolveTxKeeps` | activity-saas-backend/src/bookings/cancellation.service.ts:143-163 | the same for a resolution, which leaves capacity alone |
| `StoreInvariant.RefundTxKeeps` | activity-saas-backend/src/bookings/cancellation.service.ts:167-195 | the same for a refund transition |
| `StoreInvariant.CreateInstantKeeps` | activity-saas-backend/src/bookings/bookings.service.ts:197-213 | an instant booking is created with its one allocation and its event |
| `StoreInvariant.CreatePendingKeeps` | activity-saas-backend/src/bookings/bookings.service.ts:197-213 | a pending booking is created with its one hold |
| `StoreInvariant.ConfirmTxKeeps` | activity-saas-backend/src/bookings/bookings.service.ts:346-426 | vendor and manual confirmation turn the hold into the one allocation, or expire an overdue booking |
| `StoreInvariant.RejectTxKeeps` | activity-saas-backend/src/bookings/bookings.service.ts:377-427 | rejection and failover keep the store valid |
| `StoreInvariant.FailoverTxKeeps` | activity-saas-backend/src/bookings/bookings.service.ts:527-543 | a committed failover keeps ownership, and leaves a pending booking held if and only if its key was fresh |
| `StoreInvariant.ExpireLockedKeeps` | activity-saas-backend/src/bookings/bookings.service.ts:429 | expiry lets the active hold go if there is one |
| `StoreInvariant.ServeTxKeeps` | activity-saas-backend/src/fulfilment/fulfilment.service.ts:82-83 | check-in and completion keep the allocation |
| `StoreInvariant.CapacityTxKeeps` | activity-saas-backend/src/inventory/inventory.service.ts:35-37 | a bulk capacity edit never undercuts what is blocked, held and confirmed |
| `Ownership.FailoverKeepsOwnership` | activity-saas-backend/src/bookings/bookings.service.ts:533-535 | placing, releasing and converting in that order keep ownership under a fresh or a used key |
| `Ownership.FreeCloses` | activity-saas-backend/src/bookings/cancellation.service.ts:61-65 | freeing the allocation of a cancelled confirmed booking leaves it without capacity and every other booking as it was |
| `Ownership.ReleaseCloses` | activity-saas-backend/src/bookings/cancellation.service.ts:66-70 | the same for the hold of a pending booking |
| `Ownership.ConversionConfirms` | activity-saas-backend/src/bookings/bookings.service.ts:357-360 | conversion gives the booking exactly one allocation |
| `Stock.PlacedExactly` | activity-saas-backend/src/inventory/inventory-reservation.service.ts:29-37 | under an unused key a hold is placed if and only if it ends in the future, the session is reviewed, open and ready and that much is free; it and the counter are for exactly that quantity |
| `Stock.ConvertedExactly` | activity-saas-backend/src/inventory/inventory-reservation.service.ts:49-54 | an active hold is converted if and only if it has not run out and the session is reviewed, open and ready; the allocation has its size, session and booking |
| `Stock.AllocatedExactly` | activity-saas-backend/src/inventory/inventory-reservation.service.ts:57 | a direct allocation is made if and only if the session is reviewed, open and ready and that much is free; of exactly that quantity |
| `Stock.AdjustedExactly` | activity-saas-backend/src/inventory/inventory.service.ts:35-37 | a capacity edit sets total and blocked to what was asked if and only if that covers what is held and confirmed |
| `Stock.PlaceHoldKeepsStock` | activity-saas-backend/src/inventory/inventory-reservation.service.ts:29-39 | a placed hold, or an old one handed back under its key, keeps the counters equal to the sums |
| `Stock.LeaveHoldKeepsStock` | activity-saas-backend/src/inventory/inventory-reservation.service.ts:46 | so does releasing or expiring a hold |
| `Stock.ConvertHoldKeepsStock` | activity-saas-backend/src/inventory/inventory-reservation.service.ts:49-53 | so does conversion |
| `Stock.AllocateDirectlyKeepsStock` | activity-saas-backend/src/inventory/inventory-reservation.service.ts:57 | so does a direct allocation |
| `Stock.ReleaseAllocationKeepsStock` | activity-saas-backend/src/inventory/inventory-reservation.service.ts:60-72 | so does releasing an allocation |
| `Stock.AdjustCapacityKeepsStock` | activity-saas-backend/src/inventory/inventory.service.ts:35-37 | so does a capacity edit |
| `LedgerInvariant.RecordKeepsLedger` | activity-saas-backend/src/bookings/cancellation.service.ts:72-77 | filing a cancellation keeps index, lockstep, versions and exact event log |
| `LedgerInvariant.ResolveKeepsLedger` | activity-saas-backend/src/bookings/cancellation.service.ts:147-159 | so does a resolution |
| `LedgerInvariant.TransitionKeepsLedger` | activity-saas-backend/src/bookings/cancellation.service.ts:172-189 | so does a refund transition |
| `LedgerInvariant.SettledKeyIsFresh` | activity-saas-backend/src/bookings/cancellation.service.ts:186-189 | the versioned key of a confirmation or failure is never in the log yet |
| `LedgerInvariant.RepeatChangesNothing` | activity-saas-backend/src/bookings/cancellation.service.ts:172-173 | whoever repeats a confirmation or failure that went through is answered, and nothing is changed or written |
| `LedgerReplay.RecordMirrors` | activity-saas-backend/src/bookings/cancellation.service.ts:77-79 | the messages of a cancellation, replayed after the old outbox, tell its new state |
| `LedgerReplay.ResolveMirrors` | activity-saas-backend/src/bookings/cancellation.service.ts:158-161 | so do those of a resolution |
| `LedgerReplay.TransitionMirrors` | activity-saas-backend/src/bookings/cancellation.service.ts:177-192 | so do those of a refund transition |
| `LedgerReplay.TransitionCounts` | activity-saas-backend/src/bookings/cancellation.service.ts:186-189 | logged failures, reported failures and the number read off the version move together |
| `LedgerReplay.PaidExactlyOnce` | activity-saas-backend/src/bookings/cancellation.service.ts:186-189 | confirmed refunds in the log add up to the entitlement or to nothing |
| `EventKeys.KeyTextInjective` | activity-saas-backend/src/bookings/cancellation.service.ts:189-204 | for ids without a colon two event keys with the same text are the same key |
| `Terms.SheetHashInjective` | activity-saas-backend/src/bookings/cancellation.service.ts:213 | equal fingerprints of two calculations mean equal booking, status, version, policy, rule, days, amounts and zone |
| `Terms.PendingHashInjective` | activity-saas-backend/src/bookings/cancellation.service.ts:216 | the same for a pending withdrawal |
| `Terms.PendingHashIsNoSheet` | activity-saas-backend/src/bookings/cancellation.service.ts:213-216 | a withdrawal fingerprint is never a calculation fingerprint |
| `Terms.RequestHashInjective` | activity-saas-backend/src/bookings/cancellation.service.ts:224 | under one booking and key a request fingerprint determines category and reason |
| `Terms.AcceptedPolicyIsNeverAmbiguous` | activity-saas-backend/src/bookings/cancellation.service.ts:212 | on an accepted policy CANCELLATION_POLICY_AMBIGUOUS is never returned |
| `Terms.SameFingerprintSameTerms` | activity-saas-backend/src/bookings/cancellation.service.ts:208-216 | two eligible calculations with one fingerprint, of whatever bookings at whatever times, are of one booking and agree on status, version and all terms |
| `Text.ParseMoneyIsDecimal` | activity-saas-backend/src/bookings/cancellation.service.ts:227 | an accepted amount text is a decimal, and its minor units are a hundred times its value |
| `Text.ParseMoneyReadsMoneyText` | activity-saas-backend/src/bookings/cancellation.service.ts:213-227 | printing an amount and reading it back is the identity |
| `Text.MoneyTextInjective` | activity-saas-backend/src/bookings/cancellation.service.ts:213 | different amounts print differently |
| `Expiry.TurnIsSound` | activity-saas-backend/src/bookings/booking-expiry.service.ts:14-17 | a booking whose turn committed and that was pending and due at its own lock is expired then and at the end; any other is left exactly as found |
| `Expiry.NoteIsTrueExactly` | activity-saas-backend/src/bookings/booking-expiry.service.ts:16-17 | a booking noted as expired inside its transaction is expired by its turn if and only if it is not skipped as well; otherwise it is reported although still pending and due |
| `Expiry.NothingDueIsLeft` | activity-saas-backend/src/bookings/booking-expiry.service.ts:11-20 | a booking due at the start and not skipped is no longer both pending and due after its turn, and in every later state of the sweep if and only if no failover of this booking after that turn gives it a deadline the sweep's time has passed |
| `Expiry.TimelyOthersLeaveNothing` | activity-saas-backend/src/bookings/booking-expiry.service.ts:11-20 | in particular when the failovers after its turn read clocks that had reached the sweep's time |
| `Expiry.RunUndue` | activity-saas-backend/src/bookings/bookings.service.ts:527-535 | over any run a booking that is not due stays so at all times if and only if no failover reopens it |
| `SweepWitnesses.ListedAndLeftDue` | activity-saas-backend/src/bookings/booking-expiry.service.ts:11-20 | a run from an empty store: a booking listed, neither skipped nor expired, reopened after its turn and due when the sweep ends |
| `SweepWitnesses.ReportedAndStillDue` | activity-saas-backend/src/bookings/booking-expiry.service.ts:16-17 | a run from an empty store: the transaction fails at its commit, and the booking is reported expired while pending and due |
| `Expiry.SecondSweepFindsNone` | activity-saas-backend/src/bookings/booking-expiry.service.ts:11-20 | a second sweep for the same time, any run later, neither lists nor reports a booking the first one reported and did not skip |
| `Expiry.ExpiryCommits` | activity-saas-backend/src/bookings/bookings.service.ts:429 | a locked expiry never aborts in a valid store, so only the database can make the sweep skip |
| `Expiry.StepUndue` | activity-saas-backend/src/bookings/bookings.service.ts:527-535 | a booking not due at the sweep's time becomes due by a step if and only if a failover gives it a new deadline that this time has already passed |
| `Expiry.TimelyNeverReopens` | activity-saas-backend/src/inventory/inventory-reservation.service.ts:29-31 | a failover whose clock has reached the sweep's time never does, because a hold must expire in the future |
| `Expiry.ExpireDue` | activity-saas-backend/src/bookings/booking-expiry.service.ts:11-20 | the loop, with anything happening between its transactions and each of them committing, failing inside or failing at its commit, reports, skips and leaves what the specification of the sweep says |
| `Expiry.ExpireOne` | activity-saas-backend/src/bookings/booking-expiry.service.ts:16 | one locked transaction: the booking is looked at again, a booking no longer due is left alone, and a failure takes everything back but not the note |
| `Expiry.ExpireLockedBooking` | activity-saas-backend/src/bookings/bookings.service.ts:429 | hold and booking expire together, in place |
| `Policy.Load` | activity-saas-backend/src/bookings/cancellation-policy.service.ts:7-28 | a version of this plan with a snapshot that is not empty decides alone, whatever the plan's own rows are; a version of another plan, none, or an empty snapshot leaves the answer to the plan's rows alone |
| `Policy.LoadTold` | activity-saas-backend/src/bookings/cancellation-policy.service.ts:14-27 | the answer of the deciding rows: missing if and only if there are none, invalid if and only if some row is, ambiguous if and only if all are valid and two neighbours do not follow, otherwise the rows field by field |
| `Policy.CheckRows` | activity-saas-backend/src/bookings/cancellation-policy.service.ts:16-18 | the first loop accepts exactly the valid rows |
| `Policy.CheckPairs` | activity-saas-backend/src/bookings/cancellation-policy.service.ts:19-25 | the second loop accepts exactly the rows whose neighbours follow one another |
| `Policy.LoadAccepts` | activity-saas-backend/src/bookings/cancellation-policy.service.ts:14-27 | what is let through is exactly the accepted policies |
| `Policy.AdjacentTestIsDisjointness` | activity-saas-backend/src/bookings/cancellation-policy.service.ts:19-25 | the adjacent-pair test holds if and only if the rows are sorted by minimum day and no day is in two ranges; then only the last can be open-ended |
| `Policy.AcceptedMatchesAtMostOne` | activity-saas-backend/src/bookings/cancellation.service.ts:212 | on an accepted policy every day matches its one covering rule or none |
| `Charges.RoundIsNearest` | activity-saas-backend/src/bookings/cancellation.service.ts:229 | rounding gives the nearest minor unit, halves up |
| `Charges.SplitIsExact` | activity-saas-backend/src/bookings/cancellation.service.ts:213 | the charge is between nothing and the amount, and charge plus refund is the amount |
| `Charges.AbsoluteRuleCharges` | activity-saas-backend/src/bookings/cancellation.service.ts:213 | an absolute rule charges the money its text reads as, at most the amount |
| `Charges.PercentageRuleCharges` | activity-saas-backend/src/bookings/cancellation.service.ts:213 | a percentage rule charges its share of the amount to the nearest minor unit, and the whole amount from a hundred per cent on |
| `Charges.SplitIsMonotoneInAmount` | activity-saas-backend/src/bookings/cancellation.service.ts:213 | charge and refund never fall when the amount rises |
| `Charges.EarlierIsNeverDearer` | activity-saas-backend/src/bookings/cancellation.service.ts:208-213 | cancelling on an earlier covered day never costs more nor refunds less when the bands get no dearer with distance |
| `Charges.DistanceConditionIsExact` | activity-saas-backend/src/bookings/cancellation.service.ts:208-213 | that condition on neighbouring bands holds if and only if no covered distance is dearer than a smaller one |
| `Calendar.DifferenceIsExact` | activity-saas-backend/src/bookings/cancellation.service.ts:234 | the quotient is exact, so rounding never changes it |
| `Calendar.DifferenceCountsPages` | activity-saas-backend/src/bookings/cancellation.service.ts:234 | the difference is n if and only if turning n calendar pages from the earlier date reaches the later |
| `Calendar.DifferenceOrdersDates` | activity-saas-backend/src/bookings/cancellation.service.ts:234 | its sign is the order of the dates |
| `Calendar.DifferenceIsAdditive` | activity-saas-backend/src/bookings/cancellation.service.ts:234 | it is additive and antisymmetric |
| `Canonical.CanonicalIdentifiesSame` | activity-saas-backend/src/bookings/booking-fingerprint.ts:3-8 | two values canonicalize alike if and only if they are the same up to key order at any depth and dates read as their text |
| `Canonical.CanonicalizeIsIdempotent` | activity-saas-backend/src/bookings/booking-fingerprint.ts:3-8 | canonicalizing twice is canonicalizing once |
| `Canonical.CanonicalIsSame` | activity-saas-backend/src/bookings/booking-fingerprint.ts:3-8 | the canonical form is the same value |
| `Fingerprint.StringifyInjective` | activity-saas-backend/src/bookings/booking-fingerprint.ts:10-12 | the JSON text of a value determines it |
| `Fingerprint.FingerprintIdentifiesSame` | activity-saas-backend/src/bookings/booking-fingerprint.ts:10-12 | two values have one fingerprint if and only if they are the same |
| `RequestFingerprint.NormalizationIsIdempotent` | activity-saas-backend/src/bookings/booking-fingerprint.ts:14-19 | normalizing name and email again changes neither the request nor its fingerprint |
| `RequestFingerprint.OneTextDiffers` | activity-saas-backend/src/bookings/booking-fingerprint.ts:14-19 | requests that differ in one text have one fingerprint if and only if: for the name, the trimmed texts are equal; for the email, the trimmed texts are equal up to letter case; for any other field, the texts are equal |
| `RequestFingerprint.TrimCutsSpaces` | activity-saas-backend/src/bookings/booking-fingerprint.ts:16-17 | trimming cuts all spaces at both ends and nothing else |
| `RequestFingerprint.RequestFingerprintIdentifies` | activity-saas-backend/src/bookings/booking-fingerprint.ts:14-19 | two requests have one fingerprint if and only if they are the same after normalization |
| `AgentAccounts.RunGoverned` | activity-saas-backend/src/admin/admin.service.ts:362-463 | every run of wallet and commercial requests, approvals and rejections keeps all of the following at once |
| `AgentAccounts.WalletOnEveryRun` | activity-saas-backend/src/admin/admin.service.ts:432-445 | a balance is its opening value plus its ledger entries, and every balanceAfter is the sum up to that entry |
| `AgentAccounts.TermsOnEveryRun` | activity-saas-backend/src/admin/admin.service.ts:382-396 | each field of an agent's terms is the last value an approved change of that agent gave it, else the opening one; terms stay in bounds, and at most one change per agent waits |
| `AgentAccounts.LastGivenIsLast` | activity-saas-backend/src/admin/admin.service.ts:390-393 | the last value given is that of the approval no later approval of that agent overrides |
| `AgentAccounts.ApprovalTold` | activity-saas-backend/src/admin/admin.service.ts:389-393 | an approved change sets tier, commission, credit limit, credit days and markup each to the value it names and leaves every field it does not name; an agent without a profile starts from the default one; balances and other agents are untouched |
| `AgentAccounts.ChangeFiled` | activity-saas-backend/src/admin/admin.service.ts:362-373 | a change is filed, as given but for the spaces around the tier, if and only if it names something, all its values are within bounds, its reason has 5 to 500 characters and no other change of that agent waits |
| `AgentAccounts.CreditFiled` | activity-saas-backend/src/admin/admin.service.ts:415-422 | a credit is filed, for exactly its amount, if and only if that is positive and whole in minor units, with a reason, a known way of payment and an agent |
| `AgentAccounts.PaymentTold` | activity-saas-backend/src/admin/admin.service.ts:418 | the way of payment is read trimmed and in capitals, and is manual when none is given |
| `AgentAccounts.CreditApprovalTold` | activity-saas-backend/src/admin/admin.service.ts:440-443 | an approved credit adds exactly its amount and writes one entry that repeats the request |
| `AgentAccounts.RejectionTold` | activity-saas-backend/src/admin/admin.service.ts:400-461 | a rejection is taken if and only if it comes from somebody else, with words, while the request waits; it records who and why and touches nothing else |
| `AgentAccounts.ApprovalOnEveryRun` | activity-saas-backend/src/admin/admin.service.ts:386-439 | a waiting request is approvable by exactly those who did not make it; the not-an-agent errors never occur |
| `AgentAccounts.StepPairs` | activity-saas-backend/src/admin/admin.service.ts:441-443 | approved requests and ledger entries stay one to one with equal tenant, amount and maker |
| `AgentAccounts.StepTellsBalances` | activity-saas-backend/src/admin/admin.service.ts:441-443 | each step keeps balances and running balances true |
| `AgentAccounts.StepChecked` | activity-saas-backend/src/admin/admin.service.ts:386-458 | nobody reviews their own request, and stored changes and terms stay valid |
| `AgentAccounts.StepOneWaiting` | activity-saas-backend/src/admin/admin.service.ts:369-372 | one waiting change per agent |
| `AgentAccounts.StepTrailTrue` | activity-saas-backend/src/admin/admin.service.ts:394-395 | the trail lists each approved change once, as proposed |
| `AgentAccounts.AgentDesk.CreditAgentWallet` | activity-saas-backend/src/admin/admin.service.ts:415-430 | refuses or files exactly as specified, one request row, no balance touched |
| `AgentAccounts.AgentDesk.ApproveAgentWalletCredit` | activity-saas-backend/src/admin/admin.service.ts:432-448 | moves balance, ledger, request and trail together, or nothing |
| `AgentAccounts.AgentDesk.RejectAgentWalletCredit` | activity-saas-backend/src/admin/admin.service.ts:450-463 | closes the request without touching balance or ledger |
| `AgentAccounts.AgentDesk.UpdateAgentCommercials` | activity-saas-backend/src/admin/admin.service.ts:362-380 | refuses or files exactly as specified, terms untouched |
| `AgentAccounts.AgentDesk.ApproveAgentCommercialChange` | activity-saas-backend/src/admin/admin.service.ts:382-398 | moves terms, request and trail together, or nothing |
| `AgentAccounts.AgentDesk.RejectAgentCommercialChange` | activity-saas-backend/src/admin/admin.service.ts:400-413 | closes the request without touching the terms |
| `AgentAccounts.AgentDesk.FindWaiting` | activity-saas-backend/src/admin/admin.service.ts:370-371 | whether a change of the agent still waits |
| `Guardrails.RunSound` | activity-saas-backend/src/admin/admin.service.ts:41-72 | on every run the version is the first one plus the approvals, the configuration is the last approved one, and each approval directly follows the proposal it applies, by somebody else, replacing exactly the configuration current at the proposer's version |
| `Guardrails.SubmitAcceptedExactly` | activity-saas-backend/src/admin/admin.service.ts:45-46 | a proposal is accepted if and only if its version is current and none waits |
| `Guardrails.OnlySuperAdminsApply` | activity-saas-backend/src/admin/admin.service.ts:57-66 | configuration and version change only when a Super Admin approves somebody else's waiting proposal, and then to exactly that proposal and the next version |
| `Guardrails.GuardrailDesk.SubmitCommercialGuardrails` | activity-saas-backend/src/admin/admin.service.ts:41-55 | the proposal leaves the current configuration and version alone |
| `Guardrails.GuardrailDesk.ApproveCommercialGuardrails` | activity-saas-backend/src/admin/admin.service.ts:57-72 | the approval replaces configuration, version and proposal at once |
| `IdentifierRepair.DistinctThroughout` | activity-saas-backend/scripts/repair-demo-product-identifiers.ts:48-51 | all codes are pairwise distinct after every single update of both loops |
| `IdentifierRepair.LastUpdateSwaps` | activity-saas-backend/scripts/repair-demo-product-identifiers.ts:39-51 | the last update leaves products, variants and rate plans of the two products with their new codes and every other row unchanged |
| `IdentifierRepair.CodesEndUpRight` | activity-saas-backend/scripts/repair-demo-product-identifiers.ts:24-45 | a repair that goes through leaves the wanted product with TA-KL-0017 and gives its former owner TA-KL-0016; with the wanted code already in place nothing changes, and any other pair of codes is refused |
| `IdentifierRepair.SuffixKept` | activity-saas-backend/scripts/repair-demo-product-identifiers.ts:40-45 | a changed code gets the other product's prefix and keeps its suffix |
| `IdentifierRepair.FinalUnused` | activity-saas-backend/scripts/repair-demo-product-identifiers.ts:50-51 | a final code is free at its update if and only if no outside row owns it |
| `IdentifierRepair.SecondRunChangesNothing` | activity-saas-backend/scripts/repair-demo-product-identifiers.ts:22-25 | a second run changes nothing |
| `IdentifierRepair.Registry.Update` | activity-saas-backend/scripts/repair-demo-product-identifiers.ts:48-51 | one update under the unique index |
| `IdentifierRepair.Registry.WriteTemporaries` | activity-saas-backend/scripts/repair-demo-product-identifiers.ts:48-49 | the first loop is never refused |
| `IdentifierRepair.Registry.WriteFinals` | activity-saas-backend/scripts/repair-demo-product-identifiers.ts:50-51 | the second loop succeeds if and only if no outside row owns a final code |
| `IdentifierRepair.Registry.Swap` | activity-saas-backend/scripts/repair-demo-product-identifiers.ts:39-51 | both loops swap the codes in place |
| `IdentifierRepair.Registry.Repair` | activity-saas-backend/scripts/repair-demo-product-identifiers.ts:10-55 | the script: refused, nothing to do, or swapped, and rolled back on a taken code |

## Left out

- Holds and allocations without a booking, and the generic hold endpoints: they share no row with a booking's capacity.
- Legacy bookings and their endpoints: they appear only as records no transaction here may cancel.
- Booking creation before its writes (context, eligibility, quote, travellers, idempotency by key): its results are parameters of the step.
- The search for a failover candidate: any supplier, plan, quote and policy may be picked, which includes every one the search could return.
- Audit rows, booking event rows, fulfilment voiding, voucher generation and public codes: they share no state with the properties.
- Confirmation, rejection, creation and capacity edits as classes: bookings and inventory services are modelled on values, so update in place is shown only for the cancellation service, the sweep, the desks and the registry.
- Time zones: the local date of the service and of the cancellation are inputs of a step; dates run from the year 1000.
- Amounts with more than two decimals, non-numeric charge values, decimal column precision and very long decimals.
- The floating-point side of the wallet amount check: `AgentAccounts` decides over real numbers whether an amount has at most two decimals.
- Case folding beyond ASCII in email and payment method normalization, and JSON numbers other than by their printed text.
- Object keys that look like array indexes, which JavaScript moves to the front.
- The order in which several active holds would be found: the invariants show there is at most one.
- Projections to callers, previews of vendors and administrators, listings and dashboards: they would only add easy members.
- Platform coupons, agent tier defaults, import and draft mapping of the admin service.

# EV charging platform: the money-and-session engine, proved

The platform starts a charging session on a driver's request, meters it while the charger reports
readings, prices it when it ends, and collects the price from the driver's prepaid wallet. This
project models that engine in Dafny and proves what it promises: each session is billed for the
energy it delivered at the price in force when it was requested, and each bill is taken from the
wallet exactly once, whatever retries, top-ups, webhooks, reconnects, faults and restarts happen in
between.

`dafny verify dfyconfig.toml` checks everything.

## How it is laid out

| files | what they hold |
|---|---|
| `Money`, `Backoff`, `Tariffs` | rounding, the retry delay, price sheets |
| `Settlement` | the database and every caller of settlement and recharge as a program counter; any number of callers, interleaved step by step |
| `Books`, `Guarantees`, `Accounts` | the invariant of every interleaving, and the guarantees read off it |
| `Settling`, `Uninterrupted`, `TopUp`, `Shortfalls`, `Sweeper` | what one call does when it runs alone, field by field, and that it is an interleaving; the top-up loop and arrears; where it stops short; the sweeper, its fairness and its back-off |
| `Contention`, `Crowding` | the sweeper's fairness when any other caller may run between any two of its steps; how new orphans hold the retries up |
| `PaymentService` | the services as a class that updates the database in place, equated to those functions |
| `Sessions`, `SessionRuns`, `SessionGuarantees`, `Provenance`, `Transitions`, `SessionStore` | the session handlers as functions, their invariant, the guarantees, where every figure on a bill comes from, what each event does and exactly when, and the handlers as a class |
| `TransactionIds` | id allocation by any number of processes on one database |
| `Registry`, `Gateway`, `Frames`, `FaultEpisodes` | sockets and transaction slots; frames and what each does; what a charger says about itself |
| `Platform` | chargers, sessions and money together, from the frames a charger sends to the debit |
| `Thinning`, `Days`, `Grouping`, `Analytics`, `Revenue` | the thinned energy curve; UTC days; the analytics folds; revenue against the ledger |
| `Complaints`, `Rulings` | support tickets and their audit trail; what each request on one comes to |
| `Options`, `Sums` | an optional field; sums over rows |

The classes hold the services in the form they have: documents and connections updated in place, loops
over what a query returned. Each of their methods is proved equal to the function of the same operation,
and the table names those whose loop or answer says more than that.

Steps are as fine as the database makes them. A guarded update, an insert against a unique index and a
multi-document transaction are one step each (a transaction commits whole or changes nothing), and any
other caller may run between two of them. A session handler reads a document, changes it and saves it,
and is one step; `startSession` and `stopSession` are split at the round trip to the charger, and the
session is taken to be still `initiating` or `active` when the step after the reply runs.

Money is whole paise, time is whole milliseconds, energy is an exact real (in the analytics, whole
hundredths of a watt-hour). Documents are named by their place in insertion order.

## Where the code and its comments differ

The model follows the code; each difference has a lemma.

- `payment.service.ts:553-554` says that a wallet short for one session is short for the next. A later
  session may be cheaper; when it is right is `Shortfalls.StopsRightlyExactlyWhen`. For the same reason a
  second run straight after the first is sure to move nothing exactly when no charge that ended at the same
  instant as the first one left over was affordable: `TopUp.SecondRunMovesNothingExactlyWhen`, and
  `Shortfalls.SecondRunCanMoveMoney` reaches a state where one was.
- `payment.service.ts:681-683` says that orphans, taken first, can never block anything. A batch that they fill
  tries no retry, `Crowding.RetriesWaitExactlyWhen`, and as long as every batch is filled by sessions that ended
  since the last, a due payment waits: `Crowding.OrphansCanBlock`. How long it can wait, in any interleaving, is
  bounded by the line and what joins it: `Contention.NobodyStarvesAmongCallers`.
- `tariff.service.ts:146-176` refuses to deactivate the only active tariff. With one active tariff per
  company that is every active tariff, so a bare deactivation never happens:
  `Tariffs.DeactivateNeverActs`.
- `handlers.ts:328-329` says that `faultReportedAt` is the time the fault started. It is reset when a
  faulted charger becomes unavailable: `FaultEpisodes.SwitchRestartsTheClock`, and exactly when it is
  right: `FaultEpisodes.DownSinceStretchStart`.
- `analytics.validator.ts:78-80` says that a range can be inverted only when both ends are given. A
  start after today with no end is inverted too: `Days.InOrderExactlyWhen`.
- `complaint.service.ts:660-661` says that a ticket in progress always has an owner. An operator may pick
  one up and release it: `Complaints.InProgressByNobody`, and exactly when it happens:
  `Complaints.UnattendedExactlyWhenLastReleased`.
- `handlers.ts:470` answers a refused start with a throwaway transaction id. After a restart that id can be
  issued again: `TransactionIds.ThrowawayIdsComeBack`, and exactly which can:
  `TransactionIds.ThrowawayIdsComeBackExactlyWhen`.
- `constants/session.ts:13-17` draws a lifecycle that completes through `stopping`; a stop at the charger goes
  from `active` straight to `completed`. Which of the two it was is what the stop reason says:
  `Provenance.RemoteMeansThroughStopping`.
- `constants/wallet.ts:45-46` calls a refund a credit; `refundRecharge` debits the wallet, and so does
  `Settlement.RefundRecharge`.

## Model

| member | source | states |
|---|---|---|
| `Money.RoundHalfUp` | backend/src/utils/money.ts:71 | `Math.round`: the whole number within half, halves going up |
| `Money.CalculateAmountPaise` | backend/src/utils/money.ts:64-72 | the bill is never negative, is nothing without energy or rate, and 1000 times it is within 500 of energy times rate |
| `Money.AmountIsMonotone` | backend/src/utils/money.ts:64-72 | more energy or a higher rate never bills less |
| `Money.AmountIsNearest` | backend/src/utils/money.ts:64-72 | the bill is the only whole number of paise that close to the exact cost |
| `Money.BilledSeparatelyOrTogether` | backend/src/utils/money.ts:64-72 | n sessions at one rate, billed one by one, differ from one bill for their energy by at most (n+1)/2 paise |
| `Backoff.RetryDelayMs` | backend/src/services/payment.service.ts:532-537 | every delay lies between the base and the six-hour ceiling |
| `Backoff.DelayIsCappedDoubling` | backend/src/services/payment.service.ts:532-537 | the guard on the exponent changes nothing: the delay is min(30000 * 2^(attempts-1), 21600000) for every attempts >= 1 |
| `Backoff.DelayInMilliseconds` | backend/src/services/payment.service.ts:521-537 | in milliseconds: 30 seconds after the first failure, twice the last delay after each further one, and six hours from the eleventh on |
| `Backoff.DelayNeverShrinks` | backend/src/services/payment.service.ts:521-531 | a later attempt never waits less |
| `Backoff.CeilingFromEleventh` | backend/src/services/payment.service.ts:521-537 | the ceiling is reached by the eleventh attempt and not before |
| `Backoff.AttemptsInWindow` | backend/src/services/payment.service.ts:476-480 | failures spaced by the delay number at most 11 + T/21600000 in any T milliseconds |
| `Tariffs.FindActive` | backend/src/services/tariff.service.ts:264-268 | finds an active tariff of the company if and only if there is one |
| `Tariffs.ActivateSwaps` | backend/src/services/tariff.service.ts:178-188 | activation leaves exactly this tariff active in its company, and no price, no owner and no other company's tariff changed |
| `Tariffs.DeactivateNeverActs` | backend/src/services/tariff.service.ts:146-176 | with one active tariff per company a bare deactivation is always refused |
| `Tariffs.APriceStaysPublished` | backend/src/services/tariff.service.ts:78-209 | once a company has a price in force, no tariff operation leaves it without one |
| `Tariffs.TariffBook.UpdateTariff` | backend/src/services/tariff.service.ts:113-124 | in place: an edit is its company's price at once if the tariff is active, and changes no price if not |
| `Tariffs.TariffBook.SetTariffStatus` | backend/src/services/tariff.service.ts:137-207 | in place: an activation makes this tariff's price its company's and no other's, a deactivation of an active tariff is refused and changes nothing |
| `Settlement.FindLive` | backend/src/models/paymentTransaction.model.ts:145-155 | finds a live row for the session if and only if there is one |
| `Settlement.FindOrder` | backend/src/models/paymentTransaction.model.ts:126-133 | finds the row of a provider order if and only if there is one |
| `Settlement.FindProviderPayment` | backend/src/models/paymentTransaction.model.ts:116-123 | finds the row of a provider payment if and only if there is one |
| `Books.Movement` | backend/src/services/wallet.service.ts:158-195 | a wallet movement and its ledger row keep every balance equal to the end of its chain, and change no other wallet |
| `Books.Transaction` | backend/src/services/payment.service.ts:420-472 | the debit, claim and marking of a session, or the claim and credit of a recharge, keep the whole invariant |
| `Books.SettleCreateSound` | backend/src/services/payment.service.ts:382-407 | find-or-create under the partial index keeps the whole invariant |
| `Books.RefundSound` | backend/src/services/payment.service.ts:827-867 | reversing a recharge keeps the whole invariant |
| `Books.StepCallerSound` | backend/src/services/payment.service.ts:151-519 | every step of every caller keeps the invariant and takes nothing back |
| `Books.NextSound` | backend/src/services/payment.service.ts:72-519 | every action of any interleaving keeps the invariant, for the database and for every caller's local copies |
| `Books.EveryRunSound` | backend/src/services/payment.service.ts:72-519 | so does every run of any number of callers |
| `Books.LedgerReconciles` | backend/src/services/wallet.service.ts:204-226 | what `reconcile` adds up is the stored balance |
| `Guarantees.ExactlyOnce` | backend/src/services/payment.service.ts:366-519 | in every interleaving a charge is paid if and only if it cost nothing or has exactly one paid row and one debit of its own amount; otherwise it has neither |
| `Guarantees.Conservation` | backend/src/services/wallet.service.ts:116-226 | in every interleaving each balance is non-negative, equals the signed sum of its ledger and what its paid rows say, and ledger rows chain |
| `Guarantees.RechargeExactlyOnce` | backend/src/services/payment.service.ts:151-276 | a recharge row is credited once, in its own amount, if and only if it is paid or refunded, and reversed once if and only if it is refunded |
| `Guarantees.OneCreditPerProviderPayment` | backend/src/models/paymentTransaction.model.ts:116-133 | one provider payment id never credits two rows, nor one row twice |
| `Guarantees.NothingIsTakenBack` | backend/src/services/payment.service.ts:72-519 | no later action unpays a charge, rewrites a price or removes a ledger row |
| `Guarantees.RechargesWithinLimits` | backend/src/constants/wallet.ts:93-94 | in every interleaving every recharge row is within the published limits |
| `Guarantees.BlockedWalletStands` | backend/src/services/wallet.service.ts:116-139 | a blocked wallet does not change, whoever calls, until its status is changed |
| `Accounts.BalanceIsTopUpsLessCharges` | backend/src/services/payment.service.ts:185-472 | in every interleaving a balance is the recharges that stand less the prices of the settled charges |
| `Settling.SettleAlone` | backend/src/services/payment.service.ts:366-519 | one call run alone is skipped exactly when there is nothing to collect, collects exactly when the active wallet covers it, and then its row is paid at the instant of the call and waits no more; otherwise it counts one more attempt and books the next; no other row, charge or balance changes |
| `Settling.SettleInFull` | backend/src/services/payment.service.ts:382-480 | the row and the ledger entry that such a call leaves, field by field |
| `Settling.VerifyEffect` | backend/src/services/payment.service.ts:151-276 | one confirmation credits exactly when it is signed, known, pending, its driver's own and new, into an active wallet: the row is paid at that instant by that provider payment and its driver's balance alone rises by its amount; it is acknowledged exactly when it is a repeat; and otherwise it is refused; but for a credit nothing changes |
| `Settling.WebhookEffect` | backend/src/services/payment.service.ts:297-342 | one captured webhook, signed by the server and asked for by no driver, comes to the same |
| `Settling.SecondComesToNothing` | backend/src/services/payment.service.ts:376-464 | in any interleaving, a caller that finds its session being settled, its row decided or its recharge credited changes nothing |
| `Settling.AnswersAreTrue` | backend/src/services/payment.service.ts:151-519 | in any interleaving a caller answers that it collected, or credited, exactly when this step of its wrote the debit, or the credit |
| `Settling.RefundEffect` | backend/src/services/payment.service.ts:827-867 | a paid recharge that its active wallet covers is reversed: its row alone is refunded, its driver's balance alone falls by its amount, and the ledger gains one refund debit naming it; any other call changes nothing, and neither does a second one |
| `Settling.OrderEffect` | backend/src/services/payment.service.ts:72-110 | an order within 10 and 10,000 rupees opens the wallet and, unless it is blocked, adds one pending row of that amount; any other changes nothing |
| `Settling.AnswerEffect` | backend/src/services/payment.service.ts:108-127 | the provider's answer names a pending order once, never with a name already taken, or fails it |
| `Settling.FreezeEffect` | backend/src/services/wallet.service.ts:116-139 | a change of a wallet's status holds from then on and moves no money |
| `Settling.FinishSound` | backend/src/services/payment.service.ts:151-519 | any caller run to its end keeps the invariant and takes nothing back |
| `Uninterrupted.SettleAsActions` | backend/src/services/payment.service.ts:366-519 | one call run alone is some interleaving of its own steps |
| `Uninterrupted.WebhookAsActions` | backend/src/services/payment.service.ts:297-342 | and so is one webhook |
| `Uninterrupted.OutstandingAsActions` | backend/src/services/payment.service.ts:540-559 | so is the whole top-up loop, so what is proved of it is proved of reachable states |
| `TopUp.TopUpPaysLongestPrefix` | backend/src/services/payment.service.ts:540-559 | the top-up run pays exactly the longest oldest-first prefix that fits, returns its length and leaves the balance less its sum |
| `TopUp.SecondRunMovesNothing` | backend/src/services/payment.service.ts:540-559 | a second run straight after moves no money, unless a charge tied with the first one left over was affordable |
| `TopUp.SecondRunMovesNothingExactlyWhen` | backend/src/services/payment.service.ts:540-559 | and only then: for every answer of the query it moves nothing, if and only if no such charge was affordable |
| `Shortfalls.StopsRightlyExactlyWhen` | backend/src/services/payment.service.ts:540-559 | for every list of unpaid charges, with m of them from the front fitting the balance before the run: the run pays m, and leaves nothing the wallet could still pay if and only if every charge from the m-th on is dearer than what those m leave |
| `Shortfalls.DearChargeHidesCheapOne` | backend/src/services/payment.service.ts:553-555 | its shortest case: a wallet short for one charge covers a later one, which is left unpaid |
| `Shortfalls.SecondRunCanMoveMoney` | backend/src/services/payment.service.ts:540-559 | a run from nothing reaches two charges that ended together, where the first run pays neither and a second run straight after pays the cheaper |
| `TopUp.CoveredDebtUnblocks` | backend/src/services/payment.service.ts:586-631 | a top-up that covers the whole debt pays all of it and leaves no arrears, at any later time |
| `TopUp.BlockedExactlyWhen` | backend/src/services/payment.service.ts:586-631 | a driver is blocked if and only if the unpaid charges that ended more than 15 minutes ago are more than three or come to more than 200 rupees; how many and how much is what it reports |
| `TopUp.PassesByWhatIsSettled` | backend/src/services/payment.service.ts:540-559 | a charge on the list that somebody else has settled meanwhile is passed by, not counted and not a shortfall |
| `Sweeper.AnswerExists` | backend/src/services/payment.service.ts:693-729 | each query of the sweep has an answer |
| `Sweeper.WorklistIsWorkable` | backend/src/services/payment.service.ts:693-733 | a sweep names each charge once, and every one it names can be collected |
| `Sweeper.SweepWorks` | backend/src/services/payment.service.ts:685-739 | every named charge is attempted and the attempt acts; no other charge or row is touched |
| `Sweeper.CountsWhatItCollected` | backend/src/services/payment.service.ts:734-748 | what a sweep reports is the number of its charges that are paid after it and were not before |
| `Sweeper.EarliestFirst` | backend/src/services/payment.service.ts:690-729 | a sweep takes the orphans that ended first and the retries due first |
| `Sweeper.OrphansDrop` | backend/src/services/payment.service.ts:672-708 | each sweep takes min(limit, O) orphans and none comes back |
| `Sweeper.QueueOnlyShrinks` | backend/src/services/payment.service.ts:713-733 | after a sweep the rows due by any earlier instant are fewer by those it attempted |
| `Sweeper.PassedOver` | backend/src/services/payment.service.ts:672-733 | a sweep that does not reach a due payment brings it `limit` places forward |
| `Sweeper.NobodyStarves` | backend/src/services/payment.service.ts:685-750 | a due payment is attempted, and the attempt acts, within as many sweeps as clear everything in front of it |
| `Sweeper.EnoughSweeps` | backend/src/services/payment.service.ts:685-750 | ceil((O+r)/limit) sweeps clear the line, and one fewer does not |
| `Sweeper.RetriesAreRare` | backend/src/services/payment.service.ts:476-537 | when only the sweeper tries a payment, any T milliseconds hold at most 11 + T/21600000 failed attempts on it |
| `Contention.AttemptedOrphan` | backend/src/services/payment.service.ts:679-684 | in every interleaving an attempt that has returned leaves its charge no orphan |
| `Contention.AttemptedDue` | backend/src/services/payment.service.ts:476-480 | in every interleaving an attempt that has returned leaves the row it was made for paid, or waiting past the sweep |
| `Contention.PassedOver` | backend/src/services/payment.service.ts:685-739 | a sweep that leaves a payment due brings it `limit` places forward, whatever ran between its two queries or between any two of its attempts, less two places for each session priced meanwhile |
| `Contention.NobodyStarvesAmongCallers` | backend/src/services/payment.service.ts:366-750 | in every interleaving of any number of callers with sessions ending, orders, reversals and freezes, a due payment is acted on within as many sweeps as clear the line `limit` at a time, two places for each orphan and one for each due row, new arrivals included |
| `Contention.SweepAsActions` | backend/src/services/payment.service.ts:685-739 | the sweep run alone is one of those interleaved sweeps, so it reaches states that runs reach |
| `Contention.SweepsCanRun` | backend/src/services/payment.service.ts:685-739 | from every state a run reaches any number of sweeps can follow with nobody arriving, so enough of them for the bound always exist |
| `Crowding.RetriesWaitExactlyWhen` | backend/src/services/payment.service.ts:690-729 | a sweep tries no retry if and only if orphans fill its batch or none is due, and otherwise as many as the orphans leave room for |
| `Crowding.OrphansCanBlock` | backend/src/services/payment.service.ts:679-684 | for every batch size and every number of sweeps there is a run in which a payment stays due and untried through all of them, each batch filled by sessions that ended since the last |
| `PaymentService.Database.Reconcile` | backend/src/services/wallet.service.ts:204-226 | the loop adds up the user's ledger rows, signed, and compares |
| `PaymentService.Database.SettleSession` | backend/src/services/payment.service.ts:366-519 | the service in place, told by what it leaves: nothing where there is nothing to collect, and otherwise one collection dated now or one more attempt booked |
| `PaymentService.Database.VerifyAndCredit` | backend/src/services/payment.service.ts:151-276 | the same for a confirmation, with its rollback: credited, repeated or refused, and the rows, ledger and balances of each |
| `PaymentService.Database.HandleWebhook` | backend/src/services/payment.service.ts:297-342 | and for a webhook |
| `PaymentService.Database.ReverseRecharge` | backend/src/services/payment.service.ts:827-867 | answers that it reversed if and only if the recharge is paid and the active wallet still holds it; then the row is refunded, that balance alone falls by its amount and the ledger gains the one refund debit; otherwise nothing changes |
| `PaymentService.Database.SettleOutstandingForUser` | backend/src/services/payment.service.ts:540-559 | the loop with its early stop is the recursive specification |
| `PaymentService.Database.SweepUnsettledSessions` | backend/src/services/payment.service.ts:685-739 | the sweep's loop is the recursive specification, and counts what it collected |
| `Sessions.ConsumedWh` | backend/src/services/sessionEvents.service.ts:57-61 | energy is the difference of two readings to the nearest hundredth, in whole hundredths, never negative, and nothing if either is missing or it runs backwards |
| `Sessions.LastEvidence` | backend/src/utils/sessionEnd.ts:17-30 | the instant of the last sign of charging: the latest of the start and the readings, never after now, and now only if there is no sign or it lies ahead |
| `Sessions.AllocateFor` | backend/src/services/sessionEvents.service.ts:189-220 | the id a start ends up with is one above the counter, unless that is taken: then one above the highest ever issued; no session has it |
| `Sessions.HighestTransactionId` | backend/src/services/sessionEvents.service.ts:614-620 | no session has a higher id, and some session has this one unless it is zero |
| `SessionRuns.NextSound` | backend/src/services/sessionEvents.service.ts:147-581 | every handler keeps every session sound, the reservations and ids unique, and moves sessions only forward |
| `SessionRuns.RunSound` | backend/src/services/sessionEvents.service.ts:147-581 | so does every run of events |
| `SessionGuarantees.Lifecycle` | backend/src/models/chargingSession.model.ts:296-361 | in every run a session only moves as `Moves` says, from initiating to active or failed, from active to stopping, completed or failed, from stopping to completed or failed; an ended one is never changed by a session event, open means initiating if and only if it has no transaction id, one open session per connector and per driver, ids never shared |
| `SessionGuarantees.RateIsPriceAtCreation` | backend/src/services/chargingSession.service.ts:529-603 | every session carries the tariff price in force at the event that created it |
| `SessionGuarantees.MeterToMoney` | backend/src/models/chargingSession.model.ts:262-283 | an open session owes nothing; an ended one owes round(energy x rate / 1000), its energy the clamped difference of its closing and starting values, nothing if it never started |
| `SessionGuarantees.BillIsFinal` | backend/src/models/chargingSession.model.ts:262-283 | no later session event changes an ended session in any field; settlement alone writes to it afterwards, and only that it is paid |
| `SessionGuarantees.Metering` | backend/src/services/sessionEvents.service.ts:270-309 | stored readings strictly rise with distinct timestamps, the last value is the largest of them and the start, and the running energy is its difference from the start |
| `SessionGuarantees.ReplayChangesNothing` | backend/src/services/sessionEvents.service.ts:262-302 | replaying any backlog of readings not above the last value changes nothing at all |
| `SessionGuarantees.StoredIsBacklog` | backend/src/services/sessionEvents.service.ts:262-302 | what was stored is such a backlog |
| `SessionGuarantees.ReadingsReachTheirOwnSession` | backend/src/services/sessionEvents.service.ts:275-309 | a reading for one transaction touches that session and no other |
| `SessionGuarantees.MachineFaultScope` | backend/src/ocpp/handlers.ts:363-380 | a fault of the machine leaves it no open session and no in-flight plug, and other chargers untouched |
| `SessionGuarantees.PlugFaultScope` | backend/src/ocpp/handlers.ts:245-260 | a fresh plug fault ends that plug's session alone; a repeated one ends nothing |
| `SessionGuarantees.TimeoutScope` | backend/src/services/sessionEvents.service.ts:555-581 | the timeout sweep ends exactly the starts not confirmed in time, free of charge |
| `Provenance.StartsExactlyWhen` | backend/src/services/chargingSession.service.ts:474-618 | a start inserts a session if and only if the charger is in service, online, connected and healthy, the plug is free, a price is in force, the driver is not in arrears and neither driver nor plug has an open session; what is inserted is what was asked for, and otherwise nothing changes |
| `Provenance.EndsForACause` | backend/src/services/sessionEvents.service.ts:348-581 | an open session ends only by a StopTransaction, a disconnect, a fault, a timeout, a refusal or a stop request, and its record says which, when and at what meter value; that each of these does end it is `Transitions.EndsExactlyWhen` |
| `Provenance.StoppingNeedsTheCharger` | backend/src/services/chargingSession.service.ts:775-842 | a session becomes `stopping` if and only if it was active and a connected charger accepted the stop, and nothing else of it changes |
| `Provenance.RemoteMeansThroughStopping` | backend/src/constants/session.ts:13-17 | in every run a completed session was `stopping` at some point if and only if its stop reason is remote; an active one never was |
| `Provenance.EveryFigureWasReported` | backend/src/services/sessionEvents.service.ts:189-372 | in every run each starting value, stored reading and closing value is one that was reported under the session's own tag or transaction |
| `Provenance.BilledAsReported` | backend/src/models/chargingSession.model.ts:262-283 | in every run a completed session's amount is the bill for the two values reported for it at the price in force when it was requested |
| `Transitions.EndsExactlyWhen` | backend/src/services/sessionEvents.service.ts:348-581 | an open session ends with an event if and only if the event is cause for it: a stop of its transaction, the loss or a new fault of its charger, a new fault of its plug, a timeout or refusal while it is unconfirmed, or a stop request while it is that or its charger is gone |
| `Transitions.ActiveExactlyWhen` | backend/src/services/sessionEvents.service.ts:147-233 | a waiting session becomes active if and only if its own charger confirms its tag |
| `Transitions.StopEndsItsSession` | backend/src/services/sessionEvents.service.ts:348-385 | a stop completes the open session of its transaction at its time and value, remote if and only if it was stopping, bills its energy at its own rate, and changes nothing else |
| `Transitions.NobodysTransaction` | backend/src/services/sessionEvents.service.ts:275-360 | a stop or a reading for a transaction that no open session has changes nothing |
| `Transitions.ReadingIsStoredExactlyWhen` | backend/src/services/sessionEvents.service.ts:270-309 | a reading is stored, and moves the last value and the running energy, if and only if it is above the last value and its timestamp is new |
| `Transitions.StartBeginsItsSession` | backend/src/services/sessionEvents.service.ts:147-233 | a start begins the waiting session of its tag, on its own charger, at its value under an id nobody has; a repeat is answered as before; any other uses up one id |
| `Transitions.UnknownTagIsRefused` | backend/src/ocpp/handlers.ts:464-471 | a start under a tag that no session has uses up one id and changes nothing else |
| `Transitions.DisconnectEffect` | backend/src/services/sessionEvents.service.ts:494-533 | a lost charger fails exactly its open sessions, each at its last value and last sign of charging, billed for what was delivered, and releases exactly its plugs in mid-flight |
| `Transitions.PlugReportEffect` | backend/src/ocpp/handlers.ts:176-262 | a report is its plug's status from then on, whatever it says, and a fresh fault fails exactly that plug's session |
| `Transitions.ChargerReportEffect` | backend/src/ocpp/handlers.ts:299-380 | a machine's report is recorded if it is news, with the time unless it is back in operation, and a new fault fails exactly its sessions |
| `Transitions.TimeoutEffect` | backend/src/services/sessionEvents.service.ts:555-581 | the sweep fails exactly the starts asked for longer ago than the timeout and never confirmed, free of charge |
| `Transitions.StopRequestEffect` | backend/src/services/chargingSession.service.ts:775-842 | a stop request ends an unconfirmed start free of charge, fails a running session whose charger is gone, makes it `stopping` if the charger agrees, and otherwise changes nothing |
| `Transitions.RefuseEffect` | backend/src/services/chargingSession.service.ts:619-636 | a start that the charger refused or left unanswered is over, free of charge, unless it has moved on |
| `Transitions.PriceEventsEffect` | backend/src/services/tariff.service.ts:78-209 | the price of a new or edited sheet is in force once it is activated, an active one's at once, and no other company's price moves |
| `SessionStore.Store.SeedTransactionId` | backend/src/ocpp/registry.ts:78-80 | after a seed the counter is past what was issued and has not gone back |
| `SessionStore.Store.OnStartTransaction` | backend/src/services/sessionEvents.service.ts:147-233 | the handler in place, with its duplicate-id retry; accepted if and only if the tag's session is initiating on this charger or already active |
| `SessionStore.Store.FailSessions` | backend/src/services/sessionEvents.service.ts:425-533 | the loop ends exactly the selected sessions and counts them |
| `SessionStore.Store.SweepUnconfirmedSessions` | backend/src/services/sessionEvents.service.ts:555-581 | the loop ends exactly the unconfirmed starts and counts them |
| `SessionStore.Store.RequestStart` | backend/src/services/chargingSession.service.ts:474-618 | the start up to its await: a row is inserted if and only if every check and both unique indexes allow it |
| `TransactionIds.IdsNeverShared` | backend/src/models/chargingSession.model.ts:351-358 | across any number of processes, restarts, late seeds and refused starts, no two saved ids are equal and no two starts are told the same one |
| `TransactionIds.RetryFailsOnlyBehindAnotherProcess` | backend/src/services/sessionEvents.service.ts:204-220 | the reissued id is above every id persisted at the read, and the retry is refused if and only if another process has saved that very id since |
| `TransactionIds.LostOnlyToAnotherProcess` | backend/src/services/sessionEvents.service.ts:204-220 | every start that was given up lost its id to another process |
| `TransactionIds.SeededIsPastWhatItRead` | backend/src/ocpp/gateway.ts:415-428 | in every run, however late its seed, a seeded process is past 1000 and past every id persisted when the seed was read, and hands out nothing at or below those again |
| `TransactionIds.ThrowawayIdsComeBackExactlyWhen` | backend/src/ocpp/handlers.ts:464-471 | in every run, a process that applies the seed it has read can hand out an id afterwards if and only if it is above its own counter (1000 at boot) and above every id persisted at the read; so a throwaway id comes back exactly when no id from it on had been saved by then |
| `TransactionIds.ThrowawayIdsComeBack` | backend/src/ocpp/handlers.ts:464-471 | and one does: used up by a refused start, it is saved by the process that boots next |
| `TransactionIds.AloneIsAllocateFor` | backend/src/services/sessionEvents.service.ts:189-220 | a start that is not interrupted saves exactly the id the session handler's model allocates |
| `Registry.SetOneSlot` | backend/src/ocpp/registry.ts:129-132 | setting one connector's slot leaves every other slot as it was |
| `Registry.ClearOneSlot` | backend/src/ocpp/registry.ts:140-142 | clearing one connector's slot leaves every other slot as it was |
| `Registry.LineIsLastRegistered` | backend/src/ocpp/registry.ts:94-121 | over any history a charger is held if and only if its most recently registered socket has not itself been removed, and by that socket |
| `Registry.SlotIsLastPut` | backend/src/ocpp/registry.ts:129-150 | over any history a slot holds exactly the transaction last put there on the current connection and not dropped since |
| `Registry.HeardAtIsLastFrame` | backend/src/ocpp/registry.ts:123-126 | over any history a line's time is that of its charger's last sign of life |
| `Registry.SupersededCloseIsIgnored` | backend/src/ocpp/registry.ts:108-121 | once a charger has reconnected, the close of its old socket removes nothing |
| `Registry.Connections.Evict` | backend/src/ocpp/registry.ts:115-121 | removes if and only if the stored socket is the one given |
| `Registry.Connections.SetTransaction` | backend/src/ocpp/registry.ts:129-132 | the connection's own object is updated and no other line changes |
| `Registry.Connections.FindTransactionById` | backend/src/ocpp/registry.ts:153-164 | the loop finds the first slot that holds the transaction |
| `Gateway.GatewayRefines` | backend/src/ocpp/gateway.ts:176-500 | whatever chargers send, sessions go through a run of session events and the registry through a run of its operations |
| `Gateway.DisconnectExactlyWhenLost` | backend/src/ocpp/gateway.ts:295-500 | a charger's sessions are failed exactly when it goes from connected to not; never by a reconnect or a superseded close |
| `Gateway.OnlyTheSilentAreDropped` | backend/src/ocpp/gateway.ts:188-197 | in every run the heartbeat sweep drops a charger if and only if its last frame of any kind, or its registration, came before the cutoff |
| `Gateway.BacklogShowsLife` | backend/src/ocpp/gateway.ts:188-197 | a frame keeps its charger connected by the time it arrived, whatever time is written on it |
| `Gateway.StartNeedsALiveSocket` | backend/src/services/chargingSession.service.ts:506-513 | in every run a session is created only for a charger whose last registered socket has not been removed |
| `Gateway.StopDisconnectsOnlyWithoutALine` | backend/src/services/chargingSession.service.ts:794-842 | a stop request closes a session as disconnected if and only if it was active and its charger had no line; with one, only the charger's answer counts |
| `Gateway.OldSocketClosesQuietly` | backend/src/ocpp/gateway.ts:465-489 | in every run the close of a superseded socket changes nothing |
| `Gateway.FallbackReachesItsOwnTag` | backend/src/ocpp/handlers.ts:513-526 | in every run a reading that names only its connector reaches one open session alone, the one whose tag that connector was last started with on this connection |
| `Gateway.StopForgetsOneSlot` | backend/src/ocpp/handlers.ts:605-614 | a stop forgets one slot, of its own charger, holding the stopped transaction or on the connector it names |
| `Gateway.SweepTakesTheSilent` | backend/src/ocpp/gateway.ts:295-327 | the heartbeat sweep fails the open sessions of exactly the silent chargers and forgets exactly them |
| `Gateway.GatewayServer.OnClose` | backend/src/ocpp/gateway.ts:465-489 | a close fails the charger's sessions only if it removed its line, in place |
| `Gateway.GatewayServer.SweepStaleConnections` | backend/src/ocpp/gateway.ts:295-327 | the loop over all connections, in any order, is the sweep |
| `Gateway.GatewayServer.HandleStartTransaction` | backend/src/ocpp/handlers.ts:442-491 | the frame in place: the session handler's answer, and the slot it is remembered in |
| `Gateway.GatewayServer.HandleStopTransaction` | backend/src/ocpp/handlers.ts:569-617 | the frame in place is the signal, which `Frames.StopFrameCompletes` and `Frames.StopFrameForgets` tell |
| `Frames.StartFrameBegins` | backend/src/ocpp/handlers.ts:442-491 | a start frame begins the waiting session of its tag, or repeats for the running one, and its connector remembers the transaction under the session's id; any other is remembered nowhere |
| `Frames.MeterFrameStores` | backend/src/ocpp/handlers.ts:507-560 | a meter frame, by the transaction it names or the one its connector holds, stores its reading with that open session if it is news, and moves no slot |
| `Frames.StopFrameCompletes` | backend/src/ocpp/handlers.ts:569-604 | a stop frame, by the same rule, completes and bills that open session and changes no other |
| `Frames.StopFrameForgets` | backend/src/ocpp/handlers.ts:605-614 | and forgets exactly one slot: where its transaction was held, or failing that the connector it names |
| `Frames.FrameAboutNobody` | backend/src/ocpp/handlers.ts:507-617 | a frame about no open session changes none |
| `Frames.ElsewhereIsTheEvent` | backend/src/ocpp/gateway.ts:176-240 | any other event is taken as asked, but for whether the charger is connected; a status report shows it is alive |
| `Frames.ConnectTakesTheLine` | backend/src/ocpp/registry.ts:94-106 | a charger that connects is held by its new socket, with nothing remembered |
| `Frames.CloseExactlyWhen` | backend/src/ocpp/gateway.ts:465-489 | a close drops the charger and fails its sessions if and only if it is of the socket that holds it |
| `Frames.SilenceExactlyWhen` | backend/src/ocpp/gateway.ts:295-327 | the heartbeat sweep does if and only if the charger was last heard before the cutoff |
| `Frames.RebootForgets` | backend/src/ocpp/registry.ts:60-80 | a restart forgets every connection and the counter, and no session |
| `FaultEpisodes.StandingStatus` | backend/src/ocpp/handlers.ts:299-354 | over any run the hardware status is the last recognised one, and it is down since the first message of the current run of that status |
| `FaultEpisodes.OneReactionPerFault` | backend/src/ocpp/handlers.ts:324-380 | fault reactions number exactly the maximal runs of Faulted messages |
| `FaultEpisodes.ReactionsEndSessions` | backend/src/ocpp/handlers.ts:363-380 | each reaction leaves that charger no open session and no in-flight plug and no other charger changed; any other report ends nothing |
| `FaultEpisodes.DownSinceStretchStart` | backend/src/ocpp/handlers.ts:327-343 | on a clock that moves on, `faultReportedAt` is the start of the stretch out of operation if and only if the charger never switched between faulted and unavailable in it |
| `FaultEpisodes.SwitchRestartsTheClock` | backend/src/ocpp/handlers.ts:333-343 | a fault that turns into a withdrawal restarts the clock |
| `Platform.ChargesMirrorSessions` | backend/src/models/chargingSession.model.ts:262-283 | in every run of frames, requests and payments, each charge shows its session's owner, price and end |
| `Platform.DeliveredIsCollectedOnce` | backend/src/services/payment.service.ts:366-519 | in every run each session is billed its energy at the price in force when it was requested, and collected by exactly one debit of that bill from that driver when paid, by none otherwise; an open session is never debited |
| `Platform.FramesToDebit` | backend/src/services/payment.service.ts:366-519 | in every run a completed session is billed for the difference between the meter value of a start frame of its own charger under its tag and that of a stop frame for its transaction, at the price in force when it was requested, and that bill is debited once if it is paid and not at all if it is not |
| `Platform.WalletIsTopUpsLessEnergy` | backend/src/services/payment.service.ts:185-472 | in every run a wallet is the recharges that stand less energy times rate of each settled session |
| `Platform.EveryStartWasAllowed` | backend/src/services/chargingSession.service.ts:506-565 | in every run a session is created only by a start whose driver is not in arrears at that moment, on a charger whose last registered socket has not been removed |
| `Platform.AgedDebtRefusesStarts` | backend/src/services/payment.service.ts:586-631 | in every run a start by a driver with more than three aged unpaid charges, or more than 200 rupees of them, changes nothing |
| `Platform.SignalsMoveNoMoney` | backend/src/services/chargingSession.service.ts:474-842 | in every run no frame or request moves a balance, a ledger row or a payment row |
| `Platform.CoveringTopUpReopens` | backend/src/services/payment.service.ts:540-631 | in every run, once the wallet covers the whole debt some run of payment steps alone clears it, and from there every start is decided as if there had been no arrears, by the connections as they are |
| `Thinning.PicksSpanTheCurve` | backend/src/services/chargingSession.service.ts:946-948 | for n > limit >= 2 the indices start at 0, end at n-1, strictly rise, leave no gap above ceil((n-1)/(limit-1)) and lie within half of an even spread |
| `Thinning.ThinSpansTheCharge` | backend/src/services/chargingSession.service.ts:932-949 | the thinned curve has the size asked for, keeps the first reading where two are kept, and always ends on the last |
| `Days.CoversWholeDays` | backend/src/utils/dateRange.ts:31-62 | an instant is in a window if and only if its day is between the window's first and last |
| `Days.DefaultIsThirtyDays` | backend/src/utils/dateRange.ts:52-62 | with no start given the window is the 30 days ending on its last |
| `Days.AskedDaysAreKept` | backend/src/utils/dateRange.ts:52-62 | a day asked for is the day the window starts or ends on, whole; with no end asked for it ends today |
| `Days.InOrderExactlyWhen` | backend/src/utils/dateRange.ts:52-62 | the window is the right way round exactly when its start is not after its end, or not after today when no end is given |
| `Days.EachUtcDay` | backend/src/utils/dateRange.ts:71-86 | the loop lists consecutive days from the first to the last, none twice |
| `Days.SeriesLength` | backend/src/utils/dateRange.ts:71-97 | `daysInRange` counts both ends, and equals the length of the series exactly when the window is not inverted by more than its own last day |
| `Grouping.GroupIsKeyed` | backend/src/services/analytics.service.ts:329-336 | a group counts and sums exactly the rows of its key, and a key no row has reads zero |
| `Grouping.GroupsHoldEveryRow` | backend/src/services/analytics.service.ts:329-349 | whatever the key, the groups together hold every row once |
| `Grouping.SeriesCountsItsAxis` | backend/src/services/analytics.service.ts:524-530 | a zero-filled series over distinct keys counts exactly the rows whose key is on its axis |
| `Analytics.GetSessionTotals` | backend/src/services/analytics.service.ts:313-353 | the loop over the status groups totals every started session and its energy, by status from zero, and the statuses add up to the total |
| `Analytics.GetSessionSeries` | backend/src/services/analytics.service.ts:488-537 | consecutive days, each with exactly its own sessions and energy, adding up to the totals |
| `Analytics.RevenueTotalsHoldEveryRow` | backend/src/services/analytics.service.ts:372-410 | revenue is every paid session debit in the window, once, and zero when there is none |
| `Analytics.GetRevenueSeries` | backend/src/services/analytics.service.ts:540-579 | consecutive days, each with exactly its own money, adding up to the totals |
| `Analytics.TotalsAreOfTheWindow` | backend/src/services/analytics.service.ts:313-410 | the totals, told from the rows themselves: the sessions of the company that began in the window and their energy, by status, and the session debits paid in it |
| `Analytics.PointsAreOfTheirDay` | backend/src/services/analytics.service.ts:488-579 | each day's point, told the same way |
| `Analytics.StationsOfTheBreakdown` | backend/src/services/analytics.service.ts:596-686 | each station's line, told the same way from its own sessions and the payments for them |
| `Analytics.BreakdownEarnsTheTotal` | backend/src/services/analytics.service.ts:596-686 | the station breakdown before its limit earns the total less the payments that reach no station on record, and so equals it if and only if no such payment has an amount |
| `Analytics.BreakdownCountsEverySession` | backend/src/services/analytics.service.ts:604-686 | the breakdown counts the sessions of the totals less those whose station is off record, and their energy likewise; so the counts agree if and only if every session's station is on record, and the energies if and only if those off record delivered nothing |
| `Revenue.PaidRowsAreDated` | backend/src/services/payment.service.ts:446-453 | in every interleaving each paid row became paid by one step of a caller and is dated at the clock of that step |
| `Revenue.RevenueIsTakenWithin` | backend/src/services/analytics.service.ts:372-410 | so in every interleaving the revenue of a window is the money that steps took for sessions while the clock lay in it |
| `Revenue.RevenueIsTheLedger` | backend/src/services/analytics.service.ts:372-410 | in every interleaving, for every window and company, revenue is exactly the sum, and payments the number, of the ledger's session debits whose rows fall in it |
| `Revenue.RevenueIsTheWholeExactlyWhen` | backend/src/services/analytics.service.ts:372-410 | it is all that the ledger ever took for sessions if and only if the row of every debit falls in the window and company |
| `Revenue.SomeWindowTellsAll` | backend/src/services/analytics.service.ts:372-410 | and for a caller who sees every company some window always does |
| `Complaints.AuditTrail` | backend/src/services/complaint.service.ts:545-834 | in every run each ticket's history is a legal path from open to its status by actors allowed each move, explained where it must be; reopenings are counted, the resolving time stands exactly while the resolution does, a concluded ticket has a resolution, and the sweep waited its week |
| `Complaints.HistoryOnlyGrows` | backend/src/services/complaint.service.ts:541-576 | history and notes are append-only, the report is immutable, and a closed ticket never changes again |
| `Complaints.OperatorsConcludeOnlyHardware` | backend/src/constants/complaint.ts:119-153 | in every run no operator closed a ticket, overturned a resolution, or resolved a payment or account complaint |
| `Complaints.GatesInOrder` | backend/src/services/complaint.service.ts:591-677 | a staff move succeeds if and only if it is allowed to the role and explained, and each refusal names the gate that stood in the way |
| `Complaints.SweepClosesTheOverdue` | backend/src/services/complaint.service.ts:813-836 | the sweep closes exactly the tickets left resolved for more than a week, and leaves none |
| `Complaints.UnattendedExactlyWhenReleased` | backend/src/services/complaint.service.ts:659-732 | a ticket comes to be in progress without an owner if and only if an administrator, or the operator who holds it, takes the owner off while it is in progress |
| `Complaints.UnattendedExactlyWhenLastReleased` | backend/src/services/complaint.service.ts:659-732 | in every run a ticket is in progress by nobody if and only if such a release was the last action to touch its status or owner |
| `Complaints.InProgressByNobody` | backend/src/services/complaint.service.ts:659-732 | and that can happen |
| `Rulings.TableOfMoves` | backend/src/constants/complaint.ts:99-153 | the moves there are, and who may make each |
| `Rulings.StaffMoveEffect` | backend/src/services/complaint.service.ts:591-677 | a staff move that succeeds writes one entry by its actor with its words, is the resolution if it concludes the ticket, and takes an unowned ticket that it picks up |
| `Rulings.ConfirmEffect` | backend/src/services/complaint.service.ts:745-772 | only its reporter confirms a ticket, only while resolved; it is closed and keeps its resolution |
| `Rulings.ReopenEffect` | backend/src/services/complaint.service.ts:775-805 | only its reporter reopens one, in ten characters or more, which its history keeps |
| `Rulings.AnnotateEffect` | backend/src/services/complaint.service.ts:502-543 | staff set a priority, a draft and a signed note on a ticket that is not closed; what is not given stands |
| `Rulings.AssignEffect` | backend/src/services/complaint.service.ts:688-738 | an administrator gives a ticket to anyone who can see it or to nobody, an operator takes it or gives up their own; and the owner is whom it was given to |
| `Rulings.SweepEffect` | backend/src/services/complaint.service.ts:813-836 | the sweep closes exactly what was resolved more than seven days ago, in nobody's name |
| `Complaints.Desk.ApplyTransition` | backend/src/services/complaint.service.ts:545-576 | the one place a status is written, in place, with its history entry |
| `Complaints.Desk.SetComplaintStatus` | backend/src/services/complaint.service.ts:591-677 | the staff move in place, with its outcome |
| `Complaints.Desk.SweepResolvedComplaints` | backend/src/services/complaint.service.ts:813-836 | the loop closes exactly the overdue tickets and counts them |

## Left out

- IEEE-754 arithmetic and non-finite readings: energy is an exact real, amounts are exact, and `toFixed` rounds halves up.
- Signature checks, token minting and the provider's API: a signature is a boolean, a tag and a provider's answer are parameters.
- Parsing of charger timestamps, webhook bodies and JSON frames, and the mapping of OCPP status words (an unknown one for a plug is answered with an error): handlers receive what these yield.
- Interleaving inside one session handler: each handler is one step; documents carry no version check, so the original can lose a write that this model cannot.
- The window between a charger's answer and the step after it: the session is taken to be still `initiating` or `active` there.
- `refundRecharge` reads the row's status outside its transaction; the whole call is one step here.
- Database outages in the middle of a handler, and the driver's own retries of a transaction. A sweep that a crash cuts short is part of what happens before the next one.
- The order of ties in a sorted query: any order is allowed, and the top-up results hold for each.
- A batch of failures reads the clock once per session; one instant stands for the whole batch here.
- Clocks that lag a sweep's own by thirty seconds or more: `Contention` is about clocks closer than that.
- The `isOnline` mirror, its writes at boot and its announcements; the boot clean-up of sessions is an ordinary disconnect here.
- Vehicle and plug fit checks, tenancy scoping, the note that a forced stop must carry, labels, notifications and log lines.
- Power and state-of-charge columns of a reading; charger types copied onto a session.
- Unpaid totals, the fleet snapshot and the sort and cut of the station list: one fold or a library sort each.
- The calendar's year, month and day: a day is a whole number of days since the epoch.
- The width of a range (366 days) and the ranges of page sizes: one comparison each, in validators.
- Complaint creation's anchor, starting priority and follow-up link; texts are taken after the validators have trimmed them.
- The simulator, seed and repair scripts, routes and user interface.
- Backoff.AttemptsInWindow: is about instants already spaced by the delay; that the sweeper's attempts are is `Sweeper.RetriesAreRare`.
- Complaints.Desk.SetComplaintStatus: takes the ticket as found in the caller's scope; the lookup that may answer 404 to staff is not modelled.

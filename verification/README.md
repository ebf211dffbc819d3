# Prepaid credits and contract invoices, verified

This project models the money side of the billing services: the prepaid credit account of a
team as a state machine whose steps are the service's database transactions, the exact decimal
strings it computes with, and the payment log of contract invoices. Every step is written in the
form the service has it (methods that update fields in place, loops, an in-place sort), proved
against a functional specification, and the promises are proved about the specification over
every input, every run and every order of delivery.

How the files fit together:

- `Decimals`, `Money`, `Rounding`: the decimal parser and printer, exact arithmetic on decimal
  strings, and three independently written roundings that turn out to be one.
- `MeteringRating`: rating of usage by caller and in total.
- `Apportionment`, `CreditTargets`: the specification of the largest-remainder allocation and of
  what a rating does to every bucket, on maps, so that no listing order can matter.
  `Sorting`, `CreditAllocation`, `CreditRating`: the service's loops and sorts, proved against it.
  `RatingMeaning`: what a rating says in figures, without the specification's own terms.
- `PaymentAdjustments`: refunds, disputes and reversals.
- `Ledger` (rows and transactions), `LedgerRows`, `LedgerInvariants`, `LedgerSettlement`,
  `LedgerCharges`, `LedgerTheorems`, `LedgerRepeat` (proofs), `LedgerOutcomes` (what each transaction comes to), `LedgerRuns` (runs in which the
  database's refusals decide) and `LedgerAccount` (the class).
- `AutoTopUp`, `AutoTopUpTheorems`, `AutoTopUpOutcomes` (what each transaction comes to),
  `AutoTopUpGuard`, `AutoTopUpAccount`: the automatic top-up protocol. `TopUpLedger`: the protocol and the ledger as one system.
- `Invoice`, `InvoiceOutcomes`: totals, life cycle, stored documents, payments and the customer's
  view.

Reading conventions:

- One transaction is one atomic step, and a failed one leaves no trace. The row locks and
  serializable isolation of the service are what this stands for.
- Where a database trigger decides an outcome it is part of the step: the balance and the
  settlement totals follow the rows that are inserted, an older snapshot, an uncovered usage
  charge and a settlement under a tariff that is not in dollars are refused, an adjustment's
  amount is recomputed, a consent cannot change while a payment is unresolved, an attempt's state
  must match its stored evidence and its snapshot stays as it is, a finished setup stays finished,
  a draft must be ready and the only live invoice of its month to be claimed.
- The trigger that keeps an attempt's snapshot immutable is a parameter of every run of the
  protocol: `AsWritten` its list of changeable columns lacks the evidence column, which a later
  migration adds; `Extended` it has it. A theorem that names neither holds for both.
- Names and identifiers are natural numbers, ordered as the service's string comparison orders
  them; a service is known by one number, which stands for both its id and its identifier.
- The payment provider is a table from idempotency key to payment intent, each of which is
  settled at most once; notifications are genuine but come late, repeatedly and in any order.
- The digest of a usage snapshot is represented by the snapshot's lines.

What the proofs brought out:

- A snapshot that found nothing to correct when it was taken (no lines, nothing settled yet)
  passes the service's own replay test when it is delivered again after later snapshots, and
  would be applied. Only the trigger against older snapshots stops it:
  `LedgerTheorems.RewriteRefused` says that it always does, `LedgerRuns.EmptyCaptureReturns` is
  such a run, and `LedgerTheorems.RedeliveryOutcome` says what every other redelivery comes to.
- A rated capture is refused in exactly one case: it starts a settlement under a tariff that is
  not in dollars (`LedgerTheorems.FreshWrites`). The rating checks the currency of services with
  costs only, so a line without a cost gets that far, and one such line takes the whole
  settlement down (`LedgerRuns.ForeignTariffRefused`).
- As written, no report of a failure, of processing, of a required action or of a cancellation is
  ever stored: the guard of attempts refuses every update of the evidence column, and the whole
  transaction with it (`AutoTopUpGuard.ReportCommits`, `AutoTopUpGuard.FirstFailureRefused`). An
  attempt is pending or has succeeded, and a genuine success is always credited
  (`AutoTopUpGuard.AttemptsAsWritten`, `AutoTopUpGuard.SuccessAlwaysCredited`).
- So as written an attempt whose payment intent has been voided stays pending for good, and with
  it the consent: nothing is claimed again, and the top-up can neither be changed, disabled, taken
  over, nor set up anew (`AutoTopUpGuard.StuckForGood`, `AutoTopUpGuard.StuckRefuses`). A charge is
  the only way out (`AutoTopUpGuard.ResolvedOnlyByCharge`).
- Under either guard a recovery can never end an attempt as canceled: a canceled attempt needs the
  evidence of a cancellation notification, which the recovery does not have and which would already
  have ended the attempt (`AutoTopUpTheorems.RecoveryNeverCancels`,
  `AutoTopUpTheorems.CancellationRefused`).
- Were the guard extended, three more things would come to light. A genuine success is refused in
  exactly one case, when the attempt had been reported failed for good before
  (`AutoTopUpTheorems.ChargeCredited`, `AutoTopUpTheorems.LateChargeRefused`). When two
  notifications of the same instant contradict each other the attempt is put under review but the
  account left in the mode of the one that arrived last, and exactly then
  (`AutoTopUpTheorems.ReviewMarksAccount`, `AutoTopUpTheorems.ReviewGoesUnmarked`). And a recovery
  ends as failed exactly those attempts whose reported failure is under review
  (`AutoTopUpTheorems.RecoveryEnds`).
- An organisation's owner who is no active member of a team cannot take over billing while that
  team's top-up is on: the trigger on disable events refuses it (`AutoTopUpTheorems.TakeOverAccepted`).
- A live invoice that collects credits or has been paid on closes its month: it cannot be voided,
  and no other invoice of the organisation for that month and currency can be issued, not even the
  revision that is meant to correct it (`Invoice.MonthClosed`, `Invoice.RevisionRefused`).
- A consent update during an unresolved payment, and a setup that completes after it expired or
  was abandoned, are refused by triggers only.
- The rounding on the displayed dollar string agrees with the charged amount at every scale, not
  only at the scale the service happens to call it with.
- A disabled account is marked for review by the attempt trigger without any check of its mode.
  That this cannot happen rests on `AutoTopUpTheorems.DisabledIsQuiet`.

## Model

| member | source | states |
|---|---|---|
| `Decimals.RoundTrip` | API/src/services/billing-money.service.ts:35-58 | whatever coefficient and scale are printed, the parser accepts the string and finds the same value |
| `Decimals.PrintDecides` | API/src/services/billing-money.service.ts:49-58 | two decimals print alike exactly when they are equal in value |
| `Decimals.PrintIsCanonical` | API/src/services/billing-money.service.ts:49-58 | nothing is printed with a trailing fraction zero or as a negative zero |
| `Decimals.DecimalsAreSpelled` | API/src/services/billing-money.service.ts:6 | exactly the strings with an optional sign, a whole part without leading zeros and an optional fraction are decimals, and are read as such |
| `Decimals.NumberReads` | API/src/services/billing-money.service.ts:42 | digits are read in base ten, from left to right |
| `Money.AddExact` | API/src/services/billing-money.service.ts:60-72 | adding two decimal strings gives the canonical string of the exact sum |
| `Money.SubtractExact` | API/src/services/billing-money.service.ts:74-77 | subtracting gives the canonical string of the exact difference |
| `Money.MultiplyExact` | API/src/services/billing-money.service.ts:79-88 | basis points multiply exactly, without rounding |
| `Money.AddCommutes` | API/src/services/billing-money.service.ts:69-72 | addition commutes as a function on strings, failures included |
| `Money.AddAssociates` | API/src/services/billing-money.service.ts:69-72 | addition is associative on strings when the terms are decimals, and fails alike otherwise |
| `Money.MultiplyDistributes` | API/src/services/billing-money.service.ts:69-88 | marking up a sum is adding up the marked-up parts, as string equality |
| `Money.SubtractInverts` | API/src/services/billing-money.service.ts:69-77 | subtracting what was added gives the canonical spelling of the original |
| `Money.RoundsToNearest` | API/src/services/billing-money.service.ts:117-138 | the rounded amount is within half a minor unit, halves away from zero, with the sign of the amount |
| `Money.RoundByValue` | API/src/services/billing-money.service.ts:122-138 | rounding depends on the value only, not on how it is written |
| `Money.RoundingIsOdd` | API/src/services/billing-money.service.ts:117-138 | a credit rounds to the exact opposite of the charge it mirrors |
| `Money.MinorRoundTrip` | API/src/services/billing-money.service.ts:101-138 | minor units survive the way through the major decimal in 0-, 2- and 3-digit currencies |
| `Money.CurrencyDigits` | API/src/services/billing-money.service.ts:7-24 | which currencies have no minor unit, which a thousandth, and all others a hundredth |
| `Money.MinorAmount` | API/src/services/billing-money.service.ts:117-138 | an amount becomes the nearest number of minor units of its currency, halves away from zero; what is refused |
| `Money.MajorAmount` | API/src/services/billing-money.service.ts:107-115 | minor units become exactly the major amount, canonically; what is refused |
| `Rounding.DigitsAgree` | API/src/services/billing-stripe-usage-validation.service.ts:54-60 | keeping digits and looking at the next one is the arithmetic rounding at every scale |
| `Rounding.MeterIsRounding` | API/src/services/billing-stripe-usage-validation.service.ts:45-65 | an accepted meter quantity is the rated amount rounded to millionths of a minor unit |
| `Rounding.MeteredDollars` | API/src/services/billing-stripe-usage-validation.service.ts:50-65 | dollars are metered to the nearest hundred-millionth, halves up; signed amounts and amounts beyond 64 bits are refused |
| `Rounding.DisplayAgrees` | API/src/services/billing-credit-display.service.ts:26-41 | the cents displayed for a decimal string of any scale are the cents that would be charged |
| `Rounding.DisplayedCredits` | API/src/services/billing-credit-display.service.ts:43-47 | whole credits are rounded down, also below zero where the language's division is not |
| `Rounding.CreditAmountExact` | API/src/services/billing-credit-display.service.ts:49-65 | the dollar equivalent shown is exactly a thousandth per credit and its cents the nearest |
| `MeteringRating.RatingExact` | API/src/services/billing-rating.service.ts:28-52 | base, markup and total of a rating are exact, and it fails only for the terms |
| `MeteringRating.RatingByMode` | API/src/services/billing-rating.service.ts:28-52 | the total is the base plus the markup of its mode, at cost the base, free nothing; which terms are refused |
| `MeteringRating.RateTotal` | API/src/services/billing-rating.service.ts:103-120 | the loop rates the exact sum of the selected costs, or reports the first failing line |
| `MeteringRating.CostsAreMetered` | API/src/services/billing-rating.service.ts:54-93 | usage is rated if and only if every line can be, and every line counts in full, in total and for its caller |
| `MeteringRating.FirstRefused` | API/src/services/billing-rating.service.ts:54-73 | why it is refused otherwise: the first line that cannot be rated decides |
| `MeteringRating.BaseByCaller` | API/src/services/billing-rating.service.ts:83-93 | the loop keeps each caller's exact sum, or reports the first failing line |
| `MeteringRating.RateByCaller` | API/src/services/billing-rating.service.ts:75-101 | callers are listed once, in order, each rated on its own sum |
| `MeteringRating.GroupingLosesNothing` | API/src/services/billing-rating.service.ts:43-120 | in every mode and markup the callers' bases, markups and totals add up to the whole, as strings |
| `Sorting.Sort` | API/src/services/billing-credit-rating.service.ts:108-111 | sorting in place orders by the comparison and keeps the elements |
| `Sorting.AscendingUnique` | API/src/services/billing-credit-rating.service.ts:57-64 | under a total order there is one sorted listing |
| `Apportionment.RemaindersSum` | API/src/services/billing-credit-rating.service.ts:95-112 | the remainders add up to the total capacity times the credits left over |
| `Apportionment.OnePassSuffices` | API/src/services/billing-credit-rating.service.ts:112-122 | the credits left over are as many as the leading buckets, all of which have room, so the final failure is unreachable |
| `Apportionment.SharesExact` | API/src/services/billing-credit-rating.service.ts:87-123 | shares add up to the request, stay within capacity and within one of the exact proportion |
| `Apportionment.LargerRemainderWins` | API/src/services/billing-credit-rating.service.ts:108-119 | of two buckets with room the one rounded up has the larger remainder, or the same and the earlier name |
| `Buckets.KeyOrder` | API/src/services/billing-credit-rating.service.ts:57-64 | buckets come by service and then by user, and what is attributed to nobody last |
| `CreditAllocation.CollectCandidates` | API/src/services/billing-credit-rating.service.ts:89-95 | the candidates are exactly the buckets with room, and their total is the capacity |
| `CreditAllocation.GiveFloors` | API/src/services/billing-credit-rating.service.ts:100-107 | the first loop raises every bucket by the whole part of its proportion and nothing else |
| `CreditAllocation.HandedAreLeaders` | API/src/services/billing-credit-rating.service.ts:108-119 | walking the sorted candidates meets the leaders of the remainder order |
| `CreditAllocation.HandOut` | API/src/services/billing-credit-rating.service.ts:112-119 | the second loop gives one credit to each of the first candidates and runs out of credits, not of candidates |
| `CreditAllocation.AllocateAdditionalCredits` | API/src/services/billing-credit-rating.service.ts:87-123 | in place, every bucket is raised by its apportioned share: the request is given in full, each bucket the whole part of its proportion or one more by larger remainder and then by name; refused and unchanged exactly when there is not enough room |
| `CreditTargets.TargetsBounded` | API/src/services/billing-credit-rating.service.ts:168-206 | nobody consumes beyond capacity, and a re-rating keeps what the new capacity still covers |
| `CreditTargets.BalanceAfterIs` | API/src/services/billing-credit-rating.service.ts:189-206 | what is charged is the whole credits requested after the release |
| `CreditTargets.NoOverdraft` | API/src/services/billing-credit-rating.service.ts:189-206 | the balance ends at zero or more, or not below where it started |
| `CreditTargets.HandedOut` | API/src/services/billing-credit-rating.service.ts:189-206 | beyond what is still covered, all whole credits there are are handed out, or all there is room for |
| `CreditTargets.FullUse` | API/src/services/billing-credit-rating.service.ts:189-206 | less than a credit remains or every bucket is at capacity |
| `CreditTargets.Fixpoint` | API/src/services/billing-credit-rating.service.ts:168-233 | rating the same usage from its own outcome changes nothing |
| `CreditTargets.TargetsByValue` | API/src/services/billing-credit-rating.service.ts:168-206 | a bucket without a previous allocation and one with an allocation of zero are the same to the rating |
| `CreditRating.CollectCosts` | API/src/services/billing-credit-rating.service.ts:141-156 | the loop computes the fold of the lines or the first failure |
| `CreditRating.RatedValue` | API/src/services/billing-credit-rating.service.ts:74-81 | usage is rated at its cost and markup to the nearest hundred-millionth of a dollar, free usage at nothing, and when it is refused |
| `CreditRating.RatedAsMetered` | API/src/services/billing-credit-rating.service.ts:79-80 | that is the metered total of the metering rating under the same terms |
| `CreditRating.CostsAreSums` | API/src/services/billing-credit-rating.service.ts:141-156 | it succeeds exactly when every line is usable, and each cost is the canonical exact sum |
| `CreditRating.LinesInAnyOrder` | API/src/services/billing-credit-rating.service.ts:141-156 | the order of the lines matters neither to success nor to a digit of a cost |
| `CreditRating.CollectPrevious` | API/src/services/billing-credit-rating.service.ts:158-166 | the loop reads the previous allocations or refuses the first bad one |
| `CreditRating.PreviousInAnyOrder` | API/src/services/billing-credit-rating.service.ts:158-166 | their order does not matter either |
| `CreditRating.PrepareBuckets` | API/src/services/billing-credit-rating.service.ts:168-187 | one bucket per key in bucket order, each starting from what is kept; fails when a rated bucket cannot be metered |
| `CreditRating.SpendableCredits` | API/src/services/billing-credit-rating.service.ts:189-206 | the two sums give the credits to request |
| `CreditRating.GroupByService` | API/src/services/billing-credit-rating.service.ts:208-233 | every service gets its own buckets and their totals |
| `CreditRating.RateCreditPortfolio` | API/src/services/billing-credit-rating.service.ts:125-237 | a failure of the input, or for every service the specified consumption, user by user, with exact totals |
| `CreditRating.RatingUnique` | API/src/services/billing-credit-rating.service.ts:208-236 | that specification admits one list |
| `CreditRating.RatingInAnyOrder` | API/src/services/billing-credit-rating.service.ts:125-237 | permuting lines and previous allocations gives the identical rating |
| `RatingMeaning.WhenRated` | API/src/services/billing-credit-rating.service.ts:125-187 | a portfolio is rated if and only if every line and previous allocation is accepted and all usage can be charged |
| `RatingMeaning.FirstLineRefused` | API/src/services/billing-credit-rating.service.ts:141-156 | otherwise the first line that is not accepted decides why |
| `RatingMeaning.FirstPreviousRefused` | API/src/services/billing-credit-rating.service.ts:158-166 | or else the first previous allocation that is not |
| `RatingMeaning.RatingAccounts` | API/src/services/billing-credit-rating.service.ts:168-237 | every service is listed once, with everyone who has usage or an allocation, rated at its worth, consuming whole credits within it, and with exact sums |
| `RatingMeaning.RatingSpends` | API/src/services/billing-credit-rating.service.ts:189-206 | what is consumed beyond before is taken from the balance, which is neither overdrawn nor left with a credit that could be spent |
| `PaymentAdjustments.ExpectedAppliedDelta` | API/src/services/billing-credit-payment-adjustment-webhook.service.ts:122-161 | the loops compute the change to the capped outstanding principal, or the conflict; `ClawedBackIs` says what that principal is |
| `PaymentAdjustments.ActivePrincipal` | API/src/services/billing-credit-payment-adjustment-webhook.service.ts:144-148 | the loop over the active principals is their sum less what was restored |
| `PaymentAdjustments.NoConflict` | API/src/services/billing-credit-payment-adjustment-webhook.service.ts:127-160 | for a new notification the conflict is unreachable and the payment stays reconciled |
| `PaymentAdjustments.TriggerAgrees` | API/prisma/migrations/20260721162000_enforce_payment_adjustment_reconciliation/migration.sql:73-151 | the database's own recomputation always finds the same amount |
| `PaymentAdjustments.DeliverKeeps` | API/src/services/billing-credit-payment-adjustment-webhook.service.ts:174-234 | every payment stays reconciled; only a changed notification is refused |
| `PaymentAdjustments.Redelivered` | API/src/services/billing-credit-payment-adjustment-webhook.service.ts:183-195 | a known notification changes nothing |
| `PaymentAdjustments.AnyOrderAnyRepetition` | API/src/services/billing-credit-payment-adjustment-webhook.service.ts:122-209 | any order and repetition of deliveries ends with the same credits clawed back, between zero and what was paid |
| `PaymentAdjustments.ClawedBackIs` | API/src/services/billing-credit-payment-adjustment-webhook.service.ts:32-40 | by kind and object: what is clawed back is each refund and dispute less its own reversal, never more than was paid |
| `PaymentAdjustments.ReversedInFull` | API/src/services/billing-credit-payment-adjustment-webhook.service.ts:131-148 | an original and its full reversal, in either order, leave lost what neither would |
| `PaymentAdjustments.ReversalRestores` | API/src/services/billing-credit-payment-adjustment-webhook.service.ts:122-161 | delivering both, in either order, leaves clawed back what was before |
| `LedgerRows.ChangedRowsTell` | API/src/services/billing-credit-settlement-write.service.ts:99-139 | after the rows of a correction, everyone it concerns stands at the target and nobody else moved |
| `LedgerRows.LatestIsTruth` | API/src/services/billing-credit-settlement-write.service.ts:104-139 | although unchanged users get no row, the latest rows are everybody's true figures |
| `LedgerRows.FiguresAddUp` | API/src/services/billing-credit-settlement-write.service.ts:91-136 | the users' latest figures add up to the settlement's totals |
| `LedgerInvariants.PaymentSucceededKeeps` | API/src/services/billing-credit-funding-webhook-apply.service.ts:29-155 | a reported payment keeps the account coherent, repeated or not |
| `LedgerInvariants.PaymentAdjustedKeeps` | API/src/services/billing-credit-payment-adjustment-webhook.service.ts:163-261 | so does a refund, a dispute or a reversal |
| `LedgerSettlement.ApplyCoherent` | API/src/services/billing-credit-settlement-write.service.ts:37-141 | one service's entry, correction and rows keep balance chain, conservation, telescoping and row sums |
| `LedgerSettlement.SelectedSums` | API/src/services/billing-credit-settlement.service.ts:350-357 | reordering the work moves no credits |
| `LedgerSettlement.PrefixBounded` | API/src/services/billing-credit-settlement.service.ts:350-371 | with releases first no part of the work takes more than the whole, or than nothing |
| `LedgerCharges.TotalCharge` | API/src/services/billing-credit-settlement.service.ts:296-371 | what all services together are charged leaves the balance the rating foresaw |
| `LedgerCharges.ChargeCovered` | API/prisma/migrations/20260721140000_add_credit_settlement_runtime_coherence/migration.sql:141-146 | a service is charged only if the balance covers everything |
| `LedgerTheorems.FreshWrites` | API/src/services/billing-credit-settlement.service.ts:166-373 | a rated new capture is written if and only if every settlement it starts is in dollars; no other trigger refuses it and no entry overdraws |
| `LedgerRuns.ForeignTariffRefused` | API/prisma/migrations/20260721140000_add_credit_settlement_runtime_coherence/migration.sql:175-182 | a capture that the rating accepts is refused for the currency of a tariff under which nothing was charged |
| `LedgerTheorems.RedeliveryOutcome` | API/src/services/billing-credit-settlement.service.ts:326-344 | a snapshot taken before is a replay exactly when it has corrected every settlement of the month and repeats its amounts; else it is mutated, partial or older |
| `LedgerTheorems.RedeliveryWritesNothing` | API/src/services/billing-credit-settlement.service.ts:149-199 | a snapshot taken before never writes again, not even after later ones |
| `LedgerTheorems.RewriteRefused` | API/prisma/migrations/20260721140000_add_credit_settlement_runtime_coherence/migration.sql:270-283 | a taken snapshot that passes the service's replay test is refused as older |
| `LedgerRuns.EmptyCaptureReturns` | API/src/services/billing-credit-settlement.service.ts:326-372 | a run in which it happens: an empty capture, a later one with a line, the empty one again |
| `LedgerTheorems.CapturesIncrease` | API/src/services/billing-credit-settlement.service.ts:166-181 | captures of a month are taken in strictly increasing time and stale ones change nothing |
| `LedgerTheorems.SettlesKeeps` | API/src/services/billing-credit-settlement.service.ts:105-373 | settling keeps every invariant and only appends safe entries |
| `LedgerTheorems.AlwaysCoherent` | API/src/services/billing-credit-settlement-write.service.ts:48-97 | every state of every interleaving of orders, payments, adjustments and settlements is coherent |
| `LedgerTheorems.LedgerConserves` | API/src/services/billing-credit-settlement-write.service.ts:48-77 | in every run the balance is what was paid less what is clawed back less what is consumed, and entries chain |
| `LedgerTheorems.PaidOnce` | API/src/services/billing-credit-funding-webhook-apply.service.ts:42-91 | in every run there is one entry per paid order and per payment, in its amount |
| `LedgerTheorems.OtherShareNonNegative` | API/src/services/billing-credit-projection.service.ts:86-99 | the share shown for the other members is never negative |
| `LedgerTheorems.PreviousAccepted` | API/src/services/billing-credit-rating.service.ts:159-164 | what is read back from the account is always accepted by the next rating |
| `LedgerOutcomes.PaymentOutcome` | API/src/services/billing-credit-funding-webhook-apply.service.ts:29-131 | a reported payment is accepted if and only if it pays no other order and the order is not a closed automatic one; what it then writes; and what a paid order answers |
| `LedgerOutcomes.OrderOutcome` | API/src/services/billing-credit-funding-webhook-apply.service.ts:157-222 | an order is opened once and can be given up until it is paid |
| `LedgerOutcomes.AdjustmentOutcome` | API/src/services/billing-credit-payment-adjustment-webhook.service.ts:163-261 | an adjustment moves the balance by exactly what it changes of what is clawed back from its payment; repeated it does nothing, contradicted it is refused |
| `LedgerOutcomes.BeforeRating` | API/src/services/billing-credit-settlement.service.ts:149-199 | a capture is superseded if and only if one of its own month is as late; mutated, unknown and inactive ones are refused |
| `LedgerOutcomes.SettlementApplied` | API/src/services/billing-credit-settlement.service.ts:200-373 | an applied settlement is rated under the tariffs that hold and writes exactly that rating: totals, corrections, users' rows, one entry per changed service with credits given back first, and nothing else |
| `LedgerOutcomes.FreshOutcome` | API/src/services/billing-credit-settlement.service.ts:305-373 | a rated new capture is applied unless it would start a settlement outside dollars or there is nothing to settle |
| `LedgerOutcomes.DeliveredAgain` | API/src/services/billing-credit-settlement.service.ts:326-344 | a capture that comes again is a replay, mutated, partial or older by what it has corrected |
| `LedgerOutcomes.EventsCommit` | API/src/services/billing-credit-settlement.service.ts:105-148 | every event is its transaction, and a refused one changes nothing |
| `LedgerRepeat.SettlingAgain` | API/src/services/billing-credit-settlement.service.ts:200-373 | the same lines under a newer capture are accepted and move no balance, entry, allocation row or total, whatever the catalogue says by then |
| `LedgerRepeat.ReadBack` | API/src/services/billing-credit-settlement.service.ts:283-295 | the next rating reads back exactly what this one has consumed, user by user |
| `LedgerAccount.LatestAllocationMap` | API/src/services/billing-credit-settlement.service.ts:53-77 | the loop keeps the first row of every subject |
| `LedgerAccount.FirstIsLatest` | API/src/services/billing-credit-projection.service.ts:43-50 | read by descending number, the first row of a subject is the last one written |
| `LedgerAccount.PreviousOf` | API/src/services/billing-credit-settlement.service.ts:283-295 | the rating is given every subject of the month once, with its latest consumption |
| `LedgerAccount.SortWork` | API/src/services/billing-credit-settlement.service.ts:345-357 | the sort yields the releases by name, then the others by name |
| `LedgerAccount.Account.Pay` | API/src/services/billing-credit-funding-webhook-apply.service.ts:29-155 | the update in place is the specified transaction, with its error cases |
| `LedgerAccount.Account.Adjust` | API/src/services/billing-credit-payment-adjustment-webhook.service.ts:163-261 | likewise for an adjustment |
| `LedgerAccount.Account.ApplyService` | API/src/services/billing-credit-settlement-write.service.ts:23-141 | likewise for one rated service |
| `LedgerAccount.Account.WriteRated` | API/src/services/billing-credit-settlement.service.ts:326-372 | replay test, ordered work and writes, or the reason nothing is kept |
| `LedgerAccount.Account.Settle` | API/src/services/billing-credit-settlement.service.ts:105-373 | the whole settlement, rolled back on failure, keeps the invariant |
| `AutoTopUpTheorems.ClaimAppends` | API/src/services/billing-credit-auto-top-up-attempt.service.ts:213-345 | an attempt is started exactly when nothing is unresolved, the consent is active and exact, the balance below threshold and the cap not reached, with those terms |
| `AutoTopUpOutcomes.ClaimAnswersOpen` | API/src/services/billing-credit-auto-top-up-attempt.service.ts:213-237 | while an attempt is unresolved the claim is to dispatch it if and only if it knows no intent, and otherwise to await its notification |
| `AutoTopUpOutcomes.ClaimAnswersNew` | API/src/services/billing-credit-auto-top-up-attempt.service.ts:238-345 | with nothing unresolved it starts an attempt or says which of mode, threshold, configuration and cap forbids it |
| `AutoTopUpOutcomes.DispatchRecords` | API/src/services/billing-credit-auto-top-up-runtime.service.ts:221-301 | dispatching keeps the provider's intent or gets a new one, and records it |
| `AutoTopUpOutcomes.CrashesRecover` | API/src/services/billing-credit-auto-top-up-runtime.service.ts:310-372 | after any number of crashes, before or after the provider was asked, the next claim answers with the dispatch, and that records the one intent |
| `AutoTopUpTheorems.OneOpenAttempt` | API/src/services/billing-credit-auto-top-up-attempt.service.ts:213-238 | at most one attempt is unresolved, bound to the consent in force |
| `AutoTopUpTheorems.ResolvedForGood` | API/src/services/billing-credit-funding-webhook-apply.service.ts:110-260 | no step touches a resolved attempt |
| `AutoTopUpTheorems.ResolvedInEveryFuture` | API/src/services/billing-credit-auto-top-up-recovery.service.ts:83-102 | nor does any continuation of a run |
| `AutoTopUpTheorems.MonthlyCap` | API/src/services/billing-credit-auto-top-up-attempt.service.ts:290-338 | the month's charges up to and including a success stay within the cap it was claimed under |
| `AutoTopUpTheorems.ExactlyOnce` | API/src/services/billing-credit-auto-top-up-runtime.service.ts:221-301 | one intent per attempt, one credit per successful attempt and per charged intent, across crashes and races |
| `AutoTopUpTheorems.IntentsStay` | API/src/services/billing-credit-auto-top-up-runtime.service.ts:221-252 | the provider's answer for a key never changes |
| `AutoTopUpTheorems.CanceledNeverCharged` | API/src/services/billing-credit-auto-top-up-recovery.service.ts:104-122 | nobody is charged for a canceled attempt, then or later |
| `AutoTopUpTheorems.OnlyReportsCancel` | API/prisma/migrations/20260721160000_harden_credit_funding_webhook_evidence/migration.sql:38-45 | in every run only a reported cancellation cancels an attempt |
| `AutoTopUpTheorems.RecoveryNeverCancels` | API/prisma/migrations/20260721160000_harden_credit_funding_webhook_evidence/migration.sql:139-153 | in every run the recovery of an attempt to canceled is refused for its evidence |
| `AutoTopUpTheorems.RecoveryEnds` | API/src/services/billing-credit-auto-top-up-recovery.service.ts:83-122 | under the extended guard, once the intent is voided, an attempt ends exactly as failed and exactly when its reported failure is under review |
| `AutoTopUpTheorems.CancellationRefused` | API/src/services/billing-credit-auto-top-up-recovery.service.ts:83-102 | under either guard, a run in which the intent of a pending attempt has been voided and the recovery cannot cancel it |
| `AutoTopUpTheorems.ModeFollowsAttempt` | API/src/services/billing-credit-funding-webhook-apply.service.ts:207-293 | in every run an unresolved attempt rests on its evidence and the account's mode fits it; in active mode it is pending |
| `AutoTopUpTheorems.ReviewMarksAccount` | API/prisma/migrations/20260721160000_harden_credit_funding_webhook_evidence/migration.sql:153-182 | under the extended guard, a report that puts an attempt under review marks the account if and only if it does not contradict the report before it |
| `AutoTopUpTheorems.ReviewGoesUnmarked` | API/src/services/billing-credit-funding-webhook-apply.service.ts:267-293 | under the extended guard, a run that ends with the attempt under review and the account merely paused |
| `AutoTopUpTheorems.ChargeCredited` | API/src/services/billing-credit-funding-webhook-apply.service.ts:110-154 | under either guard a reported charge is credited if and only if its attempt is not failed |
| `AutoTopUpOutcomes.SuccessOutcome` | API/src/services/billing-credit-funding-webhook-apply.service.ts:94-155 | a reported charge credits the unresolved attempt in full and changes nothing else |
| `AutoTopUpOutcomes.FailureOutcome` | API/src/services/billing-credit-funding-webhook-apply.service.ts:157-222 | what a reported failure does in every case: final, under review, told before, outdated, or not storable |
| `AutoTopUpOutcomes.StateOutcome` | API/src/services/billing-credit-funding-webhook-apply.service.ts:224-294 | what a reported state does to the attempt and to the account in every case |
| `AutoTopUpOutcomes.RecoveryOutcome` | API/src/services/billing-credit-auto-top-up-recovery.service.ts:83-102 | what a recovery does in every case |
| `AutoTopUpOutcomes.AdjustmentMarks` | API/prisma/migrations/20260721162000_enforce_payment_adjustment_reconciliation/migration.sql:153-156 | a payment adjustment marks the account for review unless the top-up is disabled |
| `AutoTopUpTheorems.LateChargeRefused` | API/src/services/billing-credit-funding-webhook-apply.service.ts:110-131 | under the extended guard, a run in which a genuine success is refused |
| `AutoTopUpTheorems.DisabledIsQuiet` | API/src/services/billing-credit-auto-top-up-consent.service.ts:354-423 | a disabled account has no consent and nothing unresolved, and asks for no payment |
| `AutoTopUpTheorems.BindingHolds` | API/src/services/billing-credit-auto-top-up-runtime.service.ts:146-190 | dispatch never finds an attempt that has drifted from its consent |
| `AutoTopUpTheorems.GenerationCounts` | API/prisma/migrations/20260721180000_harden_credit_funding_lifecycle/migration.sql:178-232 | every consent change advances the generation by one and nothing else does |
| `AutoTopUpTheorems.GenerationFence` | API/src/services/billing-credit-funding-webhook-apply.service.ts:325-419 | a setup takes effect only if no consent change came in since it was started |
| `AutoTopUpTheorems.StaleSetupHasNoEffect` | API/src/services/billing-org-responsibility-lifecycle.service.ts:123-175 | nothing started before a disable, a take-over or any other change can turn charging on again |
| `AutoTopUpTheorems.TakeOverKeeps` | API/src/services/billing-org-responsibility-guard.service.ts:97-218 | a take-over keeps the invariant and never misses its predecessor, whatever else blocks it or not |
| `AutoTopUpTheorems.TakeOverAccepted` | API/prisma/migrations/20260816120000_add_org_billing_responsibility/migration.sql:855-890 | a take-over goes through if and only if nothing is in flight or live and, where there is a top-up to disable, its requester has the authority |
| `AutoTopUpTheorems.DisableKeeps` | API/src/services/billing-credit-auto-top-up-consent.service.ts:352-423 | a disable keeps the invariant and never misses its predecessor |
| `AutoTopUpOutcomes.UpdateOutcome` | API/src/services/billing-credit-auto-top-up-consent.service.ts:184-270 | when the terms can be changed, what refuses it, and everything it changes |
| `AutoTopUpOutcomes.DisableOutcome` | API/src/services/billing-credit-auto-top-up-consent.service.ts:352-423 | a top-up can be disabled if and only if nothing is unresolved, and what it then is |
| `AutoTopUpOutcomes.TakeOverOutcome` | API/src/services/billing-org-responsibility-lifecycle.service.ts:114-194 | the refusals of a take-over in their order, and what it changes |
| `AutoTopUpOutcomes.CreateOutcome` | API/src/services/billing-credit-auto-top-up-setup.service.ts:162-331 | when a setup can be started |
| `AutoTopUpOutcomes.OpenOutcome` | API/src/services/billing-credit-auto-top-up-setup.service.ts:371-386 | in every run a setup being created can be opened, and no other |
| `AutoTopUpOutcomes.SetupOutcome` | API/src/services/billing-credit-funding-webhook-apply.service.ts:296-420 | a completed setup puts its terms in force if and only if it is unfinished and nothing is unresolved, and what it answers otherwise |
| `AutoTopUpOutcomes.ExpiryOutcome` | API/src/services/billing-credit-funding-webhook-apply.service.ts:422-464 | an unfinished setup expires and any other stays |
| `AutoTopUpOutcomes.EventsCommit` | API/src/services/billing-credit-funding-webhook-apply.service.ts:466-490 | every event is its transaction, and a refused one changes nothing |
| `AutoTopUpTheorems.AlwaysInv` | API/src/services/billing-credit-auto-top-up-attempt.service.ts:201-346 | the protocol's invariant holds after any sequence of events |
| `AutoTopUpGuard.AttemptsAsWritten` | API/prisma/migrations/20260721120000_add_billing_funding_foundation/migration.sql:4285-4293 | in every run as written an attempt is pending or has succeeded and has no evidence |
| `AutoTopUpGuard.ReportCommits` | API/prisma/migrations/20260721120000_add_billing_funding_foundation/migration.sql:4343-4363 | a report that would change an attempt commits if and only if the guard lists the evidence column; no other outcome depends on the guard |
| `AutoTopUpGuard.FirstFailureRefused` | API/src/services/billing-credit-funding-webhook-apply.service.ts:203-214 | the first failure reported is refused as written |
| `AutoTopUpGuard.SuccessAlwaysCredited` | API/src/services/billing-credit-funding-webhook-apply.service.ts:110-154 | as written every reported charge is credited |
| `AutoTopUpGuard.RecoveryEndsNothing` | API/src/services/billing-credit-auto-top-up-recovery.service.ts:83-102 | as written no recovery ends an attempt, whatever it has read |
| `AutoTopUpGuard.StuckForGood` | API/prisma/migrations/20260721160000_harden_credit_funding_webhook_evidence/migration.sql:194-228 | as written, once the intent of an unresolved attempt is voided, no continuation claims, charges or changes the consent |
| `AutoTopUpGuard.StuckRefuses` | API/src/services/billing-credit-auto-top-up-consent.service.ts:352-423 | what every claim, update, disable and take-over then comes to |
| `AutoTopUpGuard.StuckSetup` | API/src/services/billing-credit-funding-webhook-apply.service.ts:325-419 | and no setup completes |
| `AutoTopUpGuard.ResolvedOnlyByCharge` | API/src/services/billing-credit-auto-top-up-attempt.service.ts:213-238 | as written an unresolved attempt can still be resolved if and only if its intent is not voided |
| `AutoTopUpAccount.Provider.Create` | API/src/services/billing-credit-auto-top-up-runtime.service.ts:221-252 | creating twice under one key yields the first intent |
| `AutoTopUpAccount.Account.ChargedBefore` | API/src/services/billing-credit-auto-top-up-attempt.service.ts:290-298 | the aggregate is what the month's successes charged |
| `AutoTopUpAccount.Account.ClaimNext` | API/src/services/billing-credit-auto-top-up-attempt.service.ts:201-346 | the claim in place, with every reason for skipping |
| `AutoTopUpAccount.Account.DispatchNext` | API/src/services/billing-credit-auto-top-up-runtime.service.ts:254-308 | the dispatch, with or without a crash after the provider call |
| `AutoTopUpOutcomes.NoneWaits` | API/src/services/billing-credit-auto-top-up-runtime.service.ts:310-352 | one undisturbed pass leaves no attempt that waits to be dispatched |
| `AutoTopUpAccount.Account.RunAccount` | API/src/services/billing-credit-auto-top-up-runtime.service.ts:310-352 | the pass in place: the claim, and the dispatch of what it answers |
| `AutoTopUpAccount.Account.ReportSuccess` | API/src/services/billing-credit-funding-webhook-apply.service.ts:94-155 | a success credits an open attempt once |
| `AutoTopUpAccount.Account.ReportFailure` | API/src/services/billing-credit-funding-webhook-apply.service.ts:157-222 | a failure moves an open attempt if the guard lets its evidence be stored, and is ignored or refused otherwise |
| `AutoTopUpAccount.Account.ReportState` | API/src/services/billing-credit-funding-webhook-apply.service.ts:224-294 | likewise for processing, required action and cancellation |
| `AutoTopUpAccount.Account.TerminateIfUnchanged` | API/src/services/billing-credit-auto-top-up-recovery.service.ts:83-102 | the conditional update ends the attempt only if it is as it was read and its stored evidence allows that end |
| `AutoTopUpAccount.Account.UpdateConsent` | API/src/services/billing-credit-auto-top-up-consent.service.ts:184-270 | the consent changes only from the predecessor that was read |
| `AutoTopUpAccount.Account.DisableTopUp` | API/src/services/billing-credit-auto-top-up-consent.service.ts:352-423 | disabling is refused while a payment is unresolved and abandons open setups |
| `AutoTopUpAccount.Account.DeactivateForOrganisation` | API/src/services/billing-org-responsibility-lifecycle.service.ts:114-194 | a take-over is refused while anything is in flight here or elsewhere or a subscription is live, in that order |
| `AutoTopUpAccount.Account.StartSetup` | API/src/services/billing-credit-auto-top-up-setup.service.ts:162-331 | a setup records the generation and consent it starts from |
| `AutoTopUpAccount.Account.OpenCheckout` | API/src/services/billing-credit-auto-top-up-setup.service.ts:371-386 | a setup opens only while its predecessor stands |
| `AutoTopUpAccount.Account.ReportExpiry` | API/src/services/billing-credit-funding-webhook-apply.service.ts:422-464 | an expiry ends an unsettled setup and leaves a finished one alone |
| `AutoTopUpAccount.Account.ReportSetup` | API/src/services/billing-credit-funding-webhook-apply.service.ts:296-420 | a completed setup activates its consent, or is abandoned when its predecessor is gone |
| `TopUpLedger.SuccessWritten` | API/src/services/billing-credit-funding-webhook-apply.service.ts:126-154 | whatever success the protocol accepts the ledger accepts, in the same amount |
| `TopUpLedger.ProtocolKeeps` | API/src/services/billing-credit-funding-webhook-apply.service.ts:94-155 | the ledger refuses nothing the protocol writes, and its automatic orders stay the attempts |
| `TopUpLedger.AccountKeeps` | API/prisma/migrations/20260721162000_enforce_payment_adjustment_reconciliation/migration.sql:153-156 | nothing else that happens to the account parts the two |
| `TopUpLedger.CreditedOnce` | API/src/services/billing-credit-funding-webhook-apply.service.ts:126-154 | in every run of both an attempt has succeeded if and only if the ledger has its one entry, in the consented amount and for its own charged intent; the balances agree |
| `TopUpLedger.ProtocolRun` | API/src/services/billing-credit-auto-top-up-attempt.service.ts:201-346 | the protocol's side is a run of the protocol, so all its theorems hold of it |
| `TopUpLedger.LedgerRun` | API/src/services/billing-credit-funding-webhook-apply.service.ts:29-155 | the ledger's side is a run of the ledger, so all its theorems hold of it |
| `Invoice.CalculateTotals` | API/src/services/billing-invoice-calculation.service.ts:217-240 | subtotal and rounded credits, or the reason there is no invoice |
| `Invoice.CreditsRounded` | API/src/services/billing-invoice-calculation.service.ts:226-227 | the credits shown are within half a minor unit of those consumed |
| `Invoice.LineIsMonthlyPlusUsage` | API/src/services/billing-invoice-calculation.service.ts:186-199 | rounding the sum once is the monthly amount plus the rounded usage |
| `InvoiceOutcomes.DraftOutcome` | API/src/services/billing-invoice-calculation.service.ts:217-240 | a draft owes its lines and applies its credits to the nearest minor unit; and why there is none |
| `Invoice.InvoiceSettlement` | API/src/services/billing-invoice-view.service.ts:102-132 | the view's sums, outstanding amount and payment status |
| `Invoice.PaymentLimits` | API/src/services/billing-invoice-view.service.ts:201-214 | the limits the view advertises |
| `Invoice.AcceptedWithinLimit` | API/src/services/billing-invoice-lifecycle.service.ts:444-453 | under a new key a valid request is accepted exactly when it is within the advertised limit |
| `InvoiceOutcomes.RecordOutcome` | API/src/services/billing-invoice-lifecycle.service.ts:370-491 | a request is recorded if and only if it is well formed, the invoice is open to it, its key is new and the amount is owed or was paid; and what it answers otherwise |
| `InvoiceOutcomes.CoveredInRange` | API/src/services/billing-invoice-lifecycle.service.ts:444-453 | in every run credits, payments less refunds and write-offs together stay within what is owed |
| `Invoice.RecordTwice` | API/src/services/billing-invoice-lifecycle.service.ts:425-443 | repeating an accepted request is accepted and adds nothing |
| `Invoice.RepeatedKeyAddsNothing` | API/src/services/billing-invoice-lifecycle.service.ts:425-443 | a used key never adds: it repeats its request or is in conflict with it |
| `Invoice.PaymentsStay` | API/src/services/billing-invoice-lifecycle.service.ts:306-330 | no continuation of a run removes or alters what has been recorded, or voids an invoice with activity |
| `Invoice.RepeatedEver` | API/src/services/billing-invoice-lifecycle.service.ts:425-443 | an accepted request is accepted again at any later time and changes nothing |
| `Invoice.InvoicesSound` | API/src/services/billing-invoice-lifecycle.service.ts:306-347 | in every run paid and settled amounts stay in range, void invoices have no payments and numbers are unique |
| `InvoiceOutcomes.ClaimOutcome` | API/src/services/billing-invoice-lifecycle.service.ts:111-180 | a draft is claimed if and only if its issuer is active, it is ready and no current invoice blocks it, under the next number |
| `InvoiceOutcomes.IssueOutcome` | API/src/services/billing-invoice-lifecycle.service.ts:182-266 | a document is stored once and completes its issue once |
| `InvoiceOutcomes.VoidOutcome` | API/src/services/billing-invoice-lifecycle.service.ts:306-347 | when an invoice can be voided, and what refuses it |
| `InvoiceOutcomes.EventsCommit` | API/src/services/billing-invoice-lifecycle.service.ts:306-347 | every event is its transaction, and a refused one changes nothing |
| `Invoice.LiveApart` | API/prisma/migrations/20260721182000_guard_credited_invoice_void/migration.sql:44-51 | in every run no two live invoices are for the same organisation, month and currency or collect the same credits |
| `Invoice.MonthClosed` | API/prisma/migrations/20260721182000_guard_credited_invoice_void/migration.sql:34-51 | a live invoice with credits or payments keeps every other invoice of its month from being issued, in every continuation |
| `Invoice.RevisionRefused` | API/prisma/migrations/20260721182000_guard_credited_invoice_void/migration.sql:1-25 | a run in which an issued invoice can neither be voided nor replaced by its revision |
| `Invoice.DocumentReadable` | API/src/services/billing-invoice-lifecycle.service.ts:274-304 | in every run the document of an issued or void invoice is found intact, and no other is given out |
| `Invoice.CompletionAccepted` | API/src/services/billing-invoice-lifecycle.service.ts:226-265 | in every run an issue whose document is stored is completed or found complete unless the invoice has become void |
| `Invoice.InvoiceBook.Store` | API/src/services/billing-invoice-lifecycle.service.ts:182-200 | a document is put once; putting the same again is accepted, another is refused |
| `Invoice.InvoiceBook.Claim` | API/src/services/billing-invoice-lifecycle.service.ts:111-180 | a ready draft that overlaps no live invoice takes its number once and keeps it through an interrupted issue |
| `Invoice.InvoiceBook.CompleteOne` | API/src/services/billing-invoice-lifecycle.service.ts:226-266 | only a claimed invoice becomes issued, with the document that was stored; completing again is accepted with the same document only |
| `Invoice.InvoiceBook.RecordPayment` | API/src/services/billing-invoice-lifecycle.service.ts:370-491 | recording in place, with replay, conflict and amount checks |
| `Invoice.InvoiceBook.VoidOne` | API/src/services/billing-invoice-lifecycle.service.ts:306-347 | for a usable reason only an issued invoice without settlement evidence or payments becomes void |
| `Invoice.InvoiceBook.Read` | API/src/services/billing-invoice-lifecycle.service.ts:274-304 | the document is checked against the invoice before it is given out |

## Left out

- LedgerAccount.Account.Settle: tariff selection, service lookup, activity of services and team membership are parameters, and the account is a team's, fed by one portfolio stream; organisation accounts fed by several teams are not modelled
- LedgerAccount.Account.Pay: the checks that an event belongs to its checkout or attempt (customer, amount received, currency, session) are reduced to the identity of the order
- LedgerAccount.Account.Adjust: currency and live mode of a notification are not compared, since one account has one of each
- AutoTopUpAccount.Account.ClaimNext: the field-by-field comparison of policy, option, offer, application key and catalogue with the consent is one parameter; the entry that triggered the claim is not kept
- AutoTopUpAccount.Account.UpdateConsent: the replay of a consent by the same actor token is not modelled
- AutoTopUpAccount.Account.StartSetup: the recovery of an earlier checkout with the provider is reduced to the refusal of a second unsettled setup
- AutoTopUpAccount.Account.TerminateIfUnchanged: the recovery's reading of the intent at the provider, its redirect and the setup it continues with are not modelled; that the intent is voided first is
- Invoice.InvoiceBook.RecordPayment: trimming and upper-casing of the request's strings happens before the model
- Invoice.InvoiceBook.Claim: the state of the contract, the match of lines, contract terms and metering references, the freshness of credit evidence and its collection on card invoices are one parameter
- Invoice.InvoiceBook.VoidOne: the reason is trimmed before the model
- Invoice.InvoiceBook.Store: a document is known by its digest; its contents, layout and key are not modelled, and the storage never loses one
- AutoTopUpAccount.Account.DeactivateForOrganisation: the other checkouts, add-ons, cancellation intents and live subscriptions that block it are two parameters, and the requester's memberships and roles in the trigger on disable events are parameters too; the state of the application key is not modelled
- Invoice.CalculateTotals: the per-service rated amounts are given, their rounding is a lemma of its own; an unchanged draft is not looked up by digest
- Limits of the database's integer columns other than those the service checks itself
- Retries after serialization conflicts, advisory locks, leases and timeouts: each transaction is atomic
- The reconciliation of top-up checkouts with the provider, whose status read and update are separate statements
- The scheduler that starts top-up cycles, and the batches it runs in
- Basis-point ratios, digit grouping and currency symbols: display only
- Exchange rates of disputes: the adjustment's minor amount is taken as given
- Manual adjustment entries: the services shown never write one
- Authorisation, audit rows, e-mail, HTTP routes and the layout of documents

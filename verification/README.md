# ParkEase money engine, surge pricing and session refresh in Dafny

This project models the integer money engine of ParkEase, the surge calculator, the two clients'
token refresh, and three small pieces that share their arithmetic (ratings, UUIDv7, the payout
calendar), and proves what they promise on every input and every run.

`dafny verify dfyconfig.toml` checks the whole project.

## How it is laid out

| files | what they model |
|---|---|
| `Outcomes`, `Rounding`, `Sums` | thrown errors as values, half-up division, sums and finite counting |
| `Paise`, `Rates`, `Quotes`, `RefundPolicy`, `Fees` | paise arithmetic, dated rates, the parking quote, the cancellation policy, valet and wash fees |
| `LargestRemainder` | `allocateProportionally`: a declarative split (`Parts`) and the in-place algorithm proved against it |
| `Columns`, `LedgerEntries`, `LedgerEffects` | entries, every posting, the balance check, and what each posting does to each account |
| `Ledger`, `LifeCycles`, `PartialRefunds`, `RefundLimits` | stored postings, complete life cycles, runs of partial refunds, and what is not true of them |
| `BookingRows`, `LedgerRecords`, `LedgerMachine`, `LedgerSteps`, `LedgerCases`, `LedgerRun` | one booking's own rows, every record and its rows, the ledger as a state machine, why each step keeps it, where single steps go wrong, and what every run keeps |
| `LedgerOutcomes`, `LedgerMovements`, `PartnerBalances` | what each step files and moves on every account, and how it moves what partners may be paid |
| `SurgeConfig`, `SurgeCalculator` | the schemas' predicates and the multiplier |
| `AdminSession`, `AdminClient`, `MobileRefresh`, `MobileClient` | single-flight refresh as interleaved steps, and the clients' state updated in place |
| `Rating`, `Uuid`, `PayoutSchedule` | weighted averages, identifiers, the Monday run |

## Conventions

- Amounts are unbounded integers in paise. A rate is an integer number of basis points, because
  `mulRate` quantises to 1/10000 before its exact arithmetic. Instants are integer milliseconds.
- A thrown error is `Thrown(error)`; a step that throws leaves the state as it was.
- A `Column` is everything, one account, or one counterparty's side of an account; `Net` is debits
  less credits over a column. Balance, conservation and life cycles are all statements about `Net`.
- The ledger machine has the platform's two writers: the API refuses an empty posting
  (apps/api/src/domains/ledger/ledger.service.ts:29-31), the worker skips it
  (apps/worker/src/jobs/booking/ledger.ts:28-30), and both refuse an unbalanced one.
- It keeps the callers' guards, and no others:
  - a capture is the booking's total to the paisa (verifyAmount in
    apps/api/src/domains/payment/commands/confirm-payment.command.ts:203-212), and carries the owner's
    earnings as a transfer; a booking that was never captured can only expire;
  - a captured booking is checked in, extended, completed or cancelled while it is live; a capture
    reported for a booking in any state but waiting or just confirmed is an orphan's
    (confirm-payment.command.ts:122-144), refunded once (reconcile-orphan.job.ts:45-60), and its
    payment counts as none from then on (apps/api/src/domains/payment/payment.service.ts:240-268);
  - an admin refunds a captured booking that is over, for a positive amount within the capture less
    every refund issued; only a refund row with a full reversal's reason closes it
    (apps/api/src/domains/payment/refund-options.ts:15-94);
  - the database lets no refund go beyond the capture, and aborts the step that tries
    (packages/db/migrations/0057_refunds_capped_at_capture.sql:10-25);
  - a refund row settles once, for whatever the gateway reports, and takes back its partner's share
    once; the transfers of one payment are cleared once
    (apps/worker/src/jobs/payout/reconcile.job.ts:235-260); a valet leg is reduced once, a wash reversed
    once, a payout fails once.
- Rows of `owner_payable` stamped with the driver of the booking they are under are the space owner's;
  the others are their partner's, and a payout draws a partner's whole balance
  (packages/db/src/queries/partner-payable.ts:18-34, apps/worker/src/jobs/payout/run-weekly.job.ts:85-92).
- `Holds` is what every run's state satisfies (`EveryRunHolds`); a lemma that asks for it speaks of every
  state a run can reach.
- Bookings, services, refunds, payouts and transfers are records with their own rows; a record keeps
  its place in the list for ever, so the place serves as its id.
- The library sort in the allocation is any order the comparator accepts; `OrderIsUnique` shows
  there is only one.
- In the refresh models the server rotates its refresh token on every grant and treats an older one
  as reuse. Requests, responses, the refresh's own steps and the server's answer interleave freely.

## What the proofs found

- `refunds_payable` is not what is waiting to be refunded. It is exactly so only when the goodwill,
  what reduced valet legs gave back and what the gateway kept back add up to the washes' refunds
  (`RefundsPayableIsWaitingIff`), because:
  - the goodwill of an owner or admin cancellation is credited to it and never issued
    (apps/api/src/domains/payment/refund.service.ts:139-168), so that liability is never discharged:
    a cancelled booking's life leaves it at zero exactly when the driver cancelled
    (`LiabilityClearedIff`);
  - a valet leg reduced to the call-out credits it, but the refund message carries no refund, payment
    or booking id (apps/api/src/domains/valet/commands/cancel-job.command.ts:102-108,
    apps/worker/src/jobs/valet/no-show.job.ts:110-116) and the worker's schema refuses it
    (apps/worker/src/jobs/payment/payload.ts:9-15);
  - a captured wash's cancellation is refunded without any credit to it, so settling that refund
    leaves it in debit by the whole price (`CapturedWashOverdraws`).
- The comment at packages/contracts/src/money/ledger-entries.ts:309-314 opens by saying that several
  partial refunds drift by at most a paisa per leg. True of one refund and of no larger number, even
  for quotes at the platform's own rates (`OnePaisaPerLegIff`); the drift is at most 2/3 of a paisa
  per refund and leg, and that bound is attained for every number of refunds (`DriftBoundIsAttained`).
- Refunds that together stay within the booking can take more from a leg than the booking credited
  it, from the second refund on (`NeverOverdrawnIff`). At base ₹123 and 1.25x, refunds of 2323 and
  13938 paise are the whole price and take 10456 paise from an owner who was credited 10455
  (`TwoRefundsOverdrawOwner`).
- Its "≤1 paisa per leg per refund" fails even for one refund when the owner is commission-free, and
  only then: the owner's posted leg is the sum of two rounded ones (`OwnerLegWithinOnePaisaIff`),
  off by up to 7/6 of a paisa (`SevenSixthsOff`).
- A larger refund can take less from a leg (`LargerRefundSmallerLeg`): splitting is monotone in the
  total for every list of weights of a length exactly when that length is at most two
  (`MonotoneIffTwoLegs`). The subsidised share, split over two legs, never shrinks
  (`WaiverGrowsWithRefund`).
- A full refund closes a Route booking's books exactly when Route had moved no more than the owner
  earned in the end; what it moved beyond that stays with the partner (`RouteLifeCloses`).
- A booking of at most the ₹10 fee, cancelled before the start, is reversed in full and refunded
  nothing, so no refund row records the reversal (apps/api/src/domains/payment/refund.service.ts:135-137)
  and an admin can still refund its whole capture (apps/api/src/domains/payment/refund-options.ts:47-56).
  Such bookings, and no others, can be reversed a second time (`ReversedAgainIff`), which leaves the
  owner owing the earnings again (`SecondReversal`); ₹5 at no surge is one (`FiveRupeeBooking`).
- A capture that is reported a second time, as the checkout and the webhook both do, counts as a
  replay only while the booking is `confirmed`
  (apps/api/src/domains/payment/commands/confirm-payment.command.ts:122-144). Once the driver has checked
  in, the standing booking's whole capture goes back and the owner's share is discharged again
  (`CaptureReportedTwice`), a discharge that never leaves clearing, which is settled once for each payment
  (`ClearingSettles`); cancelled after that, the booking is not charged for at all
  (`OrphanedIsReleased`).
- Once a booking is extended at a charge, neither its owner nor an admin can cancel it: the refund of the
  new total exceeds the capture, and the database refuses it (`CancelPossibleIff`,
  `ExtensionBlocksCancellation`).
- A valet leg is charged for the exact distance and reduced for the whole metres its row kept
  (apps/api/src/domains/valet/commands/accept-job.command.ts:45-46 and 66, cancel-job.command.ts:83,
  apps/worker/src/jobs/valet/no-show.job.ts:93). Less than half a metre past a whole kilometre, and only
  there, the last kilometre is charged for and never given back (`CancelledLegIsCallOutIff`,
  `ReducedIsCallOutIff`): 1000.3 m is reduced as one kilometre, 0.3 m by nothing at all
  (`ForgottenKilometre`).
- "Never more than the transfer carried" (apps/api/src/domains/payment/payment.service.ts:350-368) holds of
  one refund. From the second on the take-backs, capped one by one, can exceed the transfer
  (`TakeBacksWithinTransferIff`).
- A cancelled wash whose capture arrives late, or is reported once more after its refund, is captured all
  the same: the branch asks whether the payment is `captured` now, not whether the wash stands
  (apps/api/src/domains/payment/commands/confirm-payment.command.ts:83-120). Nothing refunds it, and its
  partner's share is discharged although it was reversed (`LateCaptureIsKept`).
- Cancelling within the grace window pays more than cancelling before the start on every non-zero
  total under ₹20 (`EarlierNeverPaysLess`).
- A payout underflows exactly when what the two withholding rates take beyond the gross does not
  round away (`PayoutPossibleIff`); two rates summing to exactly 100% do so precisely when both shares
  end in half a paisa (`PayoutAtWholeRate`).
- packages/contracts/src/money/payout-schedule.ts:12 says "at or after `now`"; the code is strictly
  after, and the two agree at every instant but that of a run, 06:00:00 on a Monday (`AtOrAfterIff`).
- In the mobile client a retried request that fails for any reason, a 500 included, ends the session
  although the refresh was granted and stored (`ServerErrorEndsRefreshedSession`); without such a
  failure, and while refreshes succeed, no interleaving ends it (`SessionSurvives`).
- A single lost answer to a granted refresh is enough to trip reuse detection on the next one, and
  nothing else is (`ReuseExactlyAfterLoss` in both clients).

## Model

| member | source | states |
|---|---|---|
| `Paise.MulRateIsNearest` | packages/contracts/src/primitives/paise.ts:18-25 | `mulRate` is the unique whole number of paise nearest to the exact product, a half going up |
| `Paise.MulRateMonotone` | packages/contracts/src/primitives/paise.ts:18-25 | a larger amount at a larger rate never yields less |
| `Paise.MulRateLipschitz` | packages/contracts/src/primitives/paise.ts:18-25 | at a rate of at most 100%, a paisa more in is at most a paisa more out |
| `Paise.MulRateAtMostWhole` | packages/contracts/src/primitives/paise.ts:18-38 | exactly which rates can take more than the amount, and so trip `subPaise` |
| `LargestRemainder.AllocateProportionally` | packages/contracts/src/money/allocate.ts:25-67 | floors, sort and spare loop, in place, compute the declarative split, with the same errors |
| `LargestRemainder.GiveSpare` | packages/contracts/src/money/allocate.ts:60-64 | the loop adds one paisa to each of the first `spare` legs in order and changes no other |
| `LargestRemainder.AllocateOutcome` | packages/contracts/src/money/allocate.ts:29-42 | when the call throws; otherwise parts are non-negative and sum to the total, or to nothing when no leg has weight |
| `LargestRemainder.OrderIsUnique` | packages/contracts/src/money/allocate.ts:53-58 | every sort honouring the comparator gives the same order, so the split is deterministic |
| `LargestRemainder.AllocationIsExact` | packages/contracts/src/money/allocate.ts:50-66 | the parts sum to exactly the total |
| `LargestRemainder.AllocationQuota` | packages/contracts/src/money/allocate.ts:45-66 | every part is the floor or ceiling of its exact share, off by strictly less than a paisa |
| `LargestRemainder.ZeroWeightGetsNothing` | packages/contracts/src/money/allocate.ts:45-66 | a leg without weight gets nothing, however large the total |
| `LargestRemainder.BumpedHasRemainder` | packages/contracts/src/money/allocate.ts:50-64 | a leg whose exact share is whole never gets a spare paisa |
| `LargestRemainder.SpareBelowNonZeroRemainders` | packages/contracts/src/money/allocate.ts:50-58 | fewer spare paise than legs with a fraction to round |
| `LargestRemainder.AllocationNeverOvershoots` | packages/contracts/src/money/allocate.ts:39-66 | a total within the weight sum takes no more from a leg than its weight |
| `LargestRemainder.AllocationOfWhole` | packages/contracts/src/money/allocate.ts:39-66 | splitting the whole weight sum returns the weights |
| `LargestRemainder.AllocationIsOptimal` | packages/contracts/src/money/allocate.ts:44-66 | no other integer split of the total has a smaller summed deviation from the exact shares |
| `LargestRemainder.AllocationDeviation` | packages/contracts/src/money/allocate.ts:44-66 | with n legs no part is off by more than (n-1)/n of a paisa |
| `LargestRemainder.MonotoneIffTwoLegs` | packages/contracts/src/money/allocate.ts:44-66 | every split over n legs is monotone in the total iff n is at most two |
| `LargestRemainder.LargerTotalSmallerPart` | packages/contracts/src/money/allocate.ts:44-66 | for every number of legs from three on, weights and two consecutive totals of which the larger gives a leg less |
| `Rates.RateAtIsLatest` | packages/contracts/src/money/rates.ts:9-17 | on a date-sorted history the answer is the latest rate in force, and it throws exactly when none is |
| `Rates.AppendedRateIsPrompt` | packages/contracts/src/money/rates.ts:9-17 | a new row answers from its own date on and changes no earlier answer |
| `Quotes.QuoteFailsExactly` | packages/contracts/src/money/quote.ts:31-108 | the only failures are surge out of range and a commission over 100% that does not round away; the balance assertion never fires |
| `Quotes.QuoteNeverUnderflows` | packages/contracts/src/money/quote.ts:66-95 | every base, permitted surge and commission up to 100% quotes |
| `Quotes.QuoteAmounts` | packages/contracts/src/money/quote.ts:41-80 | which amount each rate is applied to, to the nearest paisa, and what the driver pays |
| `Quotes.WaiverIsInvisibleToDriver` | packages/contracts/src/money/quote.ts:75-80 | waiving commission leaves the driver's total and the GST alone and pays the owner the whole base |
| `Quotes.SurgeReachesOnlyDriver` | packages/contracts/src/money/quote.ts:41-80 | owner earnings and waiver do not depend on surge; the driver's total and the fee are monotone in it |
| `RefundPolicy.RefundSplitsTotal` | packages/contracts/src/money/refund-policy.ts:62-114 | refund and retention split the total, neither negative; goodwill only when the owner or an admin cancels |
| `RefundPolicy.RefundByClock` | packages/contracts/src/money/refund-policy.ts:82-113 | the tier by time, the capped fee, half rounded up, then nothing |
| `RefundPolicy.EarlierNeverPaysLess` | packages/contracts/src/money/refund-policy.ts:82-113 | exactly which totals are never refunded more by cancelling later |
| `Fees.SplitAmounts` | packages/contracts/src/money/valet-fee.ts:47-60 | commission on the fee, GST on the commission only, and the three credits sum to the driver's total |
| `Fees.ValetFeeByDistance` | packages/contracts/src/money/valet-fee.ts:36-71 | part-kilometres round up, and a no-show costs exactly the base fee |
| `Fees.SplitMonotone` | packages/contracts/src/money/carwash-fee.ts:50-59 | every part of the split grows with the price |
| `Columns.ComposeKeepsNet` | packages/contracts/src/money/ledger-entries.ts:67-89 | dropping zero legs changes no account |
| `LedgerEntries.AssertEntriesBalance` | packages/contracts/src/money/ledger-entries.ts:188-211 | the loop accepts exactly the non-empty postings with positive amounts and equal sides |
| `LedgerEffects.QuoteTotalsWellFormed` | packages/contracts/src/money/ledger-entries.ts:54-65 | every quote gives well-formed totals |
| `LedgerEffects.ExtensionKeepsWellFormed` | packages/contracts/src/money/ledger-entries.ts:48-65 | accumulated totals stay well formed, and posting them is posting the two quotes |
| `LedgerEffects.BookingBalances` | packages/contracts/src/money/ledger-entries.ts:101-113 | the booking posting balances, and what it does to every account |
| `LedgerEffects.DiscountBalances` | packages/contracts/src/money/ledger-entries.ts:373-396 | a discount is accepted exactly up to the driver's total, and then balances |
| `LedgerEffects.DiscountIsInvisibleToOwner` | packages/contracts/src/money/ledger-entries.ts:373-396 | against an undiscounted booking only the driver's receivable and the promotion expense move |
| `LedgerEffects.ReverseRestores` | packages/contracts/src/money/ledger-entries.ts:139-155 | a reversal negates every account and every counterparty's side, and balances when its original does |
| `LedgerEffects.SplitIsFair` | packages/contracts/src/money/ledger-entries.ts:321-332 | the three legs sum to the refund; each, and the waiver, is within a paisa of its share, within its credit for refunds within the total, and equal to it for the whole |
| `LedgerEffects.ProportionalRefundBalances` | packages/contracts/src/money/ledger-entries.ts:316-341 | a refund of any size balances unless the booking cost nothing, and owes the driver exactly the refund |
| `LedgerEffects.RefundWithinBookingIff` | packages/contracts/src/money/ledger-entries.ts:304-341 | no account gives back more than the booking credited exactly when the documented precondition holds |
| `LedgerEffects.WholeRefundIsFullReversal` | packages/contracts/src/money/ledger-entries.ts:236-251 | refunding everything proportionally equals the full reversal with nothing retained, column by column |
| `LedgerEffects.CancellationBalances` | packages/contracts/src/money/ledger-entries.ts:270-294 | the posting for any resolved cancellation is complete and owes refund plus goodwill |
| `LedgerEffects.ServiceSides` | packages/contracts/src/money/ledger-entries.ts:412-423 | the partner's side holds the earnings and nothing else; the other accounts belong to nobody |
| `LedgerEffects.ServiceBalances` | packages/contracts/src/money/ledger-entries.ts:499-510 | a service posting balances at any commission up to 100% |
| `LedgerEffects.TransfersBalance` | packages/contracts/src/money/ledger-entries.ts:351-359 | settlements and Route postings balance, and only a settlement discharges what is owed to drivers |
| `LedgerEffects.PayoutBalances` | packages/contracts/src/money/ledger-entries.ts:559-584 | each withheld part is the nearest paisa of the gross at its own rate, they and the net sum to it, and every account moves by exactly its part: the payee's by the gross, clearing by the net, TCS and TDS by theirs |
| `LedgerEffects.ServiceBalancedIff` | packages/contracts/src/money/ledger-entries.ts:499-510 | a service of a positive price posts exactly when its commission does not take a paisa more than the price |
| `LedgerEffects.PayoutPossibleIff` | packages/contracts/src/money/ledger-entries.ts:568-570 | at any two rates, a payout is possible iff what they take beyond the gross rounds away |
| `LedgerEffects.PayoutNeverUnderflows` | packages/contracts/src/money/ledger-entries.ts:568-570 | rates summing to strictly less than 100% never underflow |
| `LedgerEffects.PayoutAtWholeRate` | packages/contracts/src/money/ledger-entries.ts:568-570 | at exactly 100% it underflows iff the shares sit on half a paisa |
| `Ledger.StampKeepsAccounts` | apps/api/src/domains/ledger/ledger.service.ts:29-58 | stamping counterparties changes no account and keeps a posting balanced |
| `Ledger.StampedSide` | apps/api/src/domains/ledger/ledger.service.ts:44-53 | a posting without counterparties of its own lands wholly on the stamped one's side |
| `LifeCycles.FullRefundShare` | packages/contracts/src/money/ledger-entries.ts:607-611 | the share taken back for a full refund is everything the partner earned |
| `LifeCycles.RouteLifeCloses` | apps/api/src/domains/payment/payment.service.ts:352-368 | booked, transferred, cleared, refunded in full, taken back up to the transfer, settled: every account is zero iff Route had moved at most the owner's earnings, then every side of the payable is too, and otherwise the excess stays on the partner's side |
| `LifeCycles.BeforeStartLifeEnds` | packages/contracts/src/money/ledger-entries.ts:275-276 | only the retained fee is left, as revenue the driver paid for |
| `LifeCycles.OwnerCancelledLifeEnds` | apps/api/src/domains/payment/refund.service.ts:119-168 | the goodwill is left, expensed and owed in `refunds_payable`; every other account is zero |
| `LifeCycles.LiabilityClearedIff` | apps/api/src/domains/payment/refund.service.ts:119-168 | whatever the tier, the life leaves `refunds_payable` at zero iff the driver cancelled |
| `LifeCycles.GraceLifeEnds` | packages/contracts/src/money/ledger-entries.ts:287-292 | the driver has paid what was retained, and owner, platform and tax keep part of their credits |
| `LifeCycles.AdjustmentAcceptedIff` | packages/contracts/src/money/ledger-entries.ts:439-482 | at a commission up to 100% an adjustment is refused only for a longer retained leg; `subPaise` never throws |
| `LifeCycles.AdjustmentAlwaysPossibleIff` | packages/contracts/src/money/ledger-entries.ts:452-457 | the monotonicity argument holds for all pairs of legs iff the rate is at most 100% |
| `LifeCycles.AdjustedLegIsRetainedLeg` | packages/contracts/src/money/ledger-entries.ts:425-482 | charge, adjustment and settlement equal charging only the retained leg, in every column |
| `LifeCycles.RefundShare` | packages/contracts/src/money/ledger-entries.ts:607-611 | the share taken back for a refund of any size is what its split debits the owner, the waived part included |
| `LifeCycles.CancelledLegIsCallOutIff` | apps/api/src/domains/valet/commands/cancel-job.command.ts:83-109 | a leg charged, cancelled and its reduction refunded is a call-out in every column iff its distance was not less than half a metre past a whole kilometre |
| `LifeCycles.ForgottenKilometre` | apps/api/src/domains/valet/commands/accept-job.command.ts:45-66 | two such distances: one reduced for a kilometre less than it was charged for, one with nothing to give back |
| `PartialRefunds.DriftBound` | packages/contracts/src/money/ledger-entries.ts:304-341 | after k refunds the total is exact, each leg is off by at most 2k/3 of a paisa and the waiver by k/2 |
| `PartialRefunds.OwnerDriftBound` | packages/contracts/src/money/ledger-entries.ts:335-335 | a commission-free owner's combined leg is off by at most 7k/6 of a paisa |
| `PartialRefunds.RefundPostingsNet` | packages/contracts/src/money/ledger-entries.ts:316-341 | on the books, the refunds take exactly those splits and owe exactly their total |
| `RefundLimits.NeverOverdrawnIff` | packages/contracts/src/money/ledger-entries.ts:304-314 | for k permitted refunds no leg gives back more than was credited, over all well-formed totals and over all quotes at the platform's rates, iff k is at most one |
| `RefundLimits.OnePaisaPerLegIff` | packages/contracts/src/money/ledger-entries.ts:309-314 | every leg stays within a paisa of its share of k permitted refunds, over the same totals and quotes, iff k is at most one |
| `RefundLimits.DriftBoundIsAttained` | packages/contracts/src/money/ledger-entries.ts:309-314 | the 2k/3 bound is attained for every k by a quote at 50% commission and 100% GST |
| `RefundLimits.OwnerLegWithinOnePaisaIff` | packages/contracts/src/money/ledger-entries.ts:310-314 | one refund keeps the owner's posted leg within a paisa, over all quotes at the platform's rates, iff commission is not waived |
| `RefundLimits.SevenSixthsOff` | packages/contracts/src/money/ledger-entries.ts:321-335 | a commission-free quote and a refund that attain the 7/6 of a paisa |
| `RefundLimits.TwoRefundsOverdrawOwner` | packages/contracts/src/money/ledger-entries.ts:304-314 | a quote at the platform's rates whose whole price, refunded in two parts, takes a paisa too much from the owner, and takes back a paisa more than was transferred |
| `RefundLimits.TakeBacksWithinTransferIff` | apps/api/src/domains/payment/payment.service.ts:350-368 | k permitted refunds take back no more than was transferred, over all totals and transfers and over all quotes at the platform's rates with their earnings transferred, iff k is at most one |
| `RefundLimits.LargerRefundSmallerLeg` | packages/contracts/src/money/ledger-entries.ts:321-328 | a quote at the platform's rates whose GST leg shrinks as the refund grows by a paisa |
| `RefundLimits.WaiverGrowsWithRefund` | packages/contracts/src/money/ledger-entries.ts:329-332 | the subsidised share never shrinks as the refund grows |
| `BookingRows.CancelledHolds` | packages/contracts/src/money/ledger-entries.ts:258-294 | after any cancellation a booking's rows are its quotes less a proportional refund, or on every account what the reversal left: what the driver paid or is owed, what was kept, the goodwill, and nothing else |
| `BookingRows.RefundedHolds` | packages/contracts/src/money/ledger-entries.ts:296-341 | one more partial refund keeps every account of a booking's rows at its quotes less all its splits |
| `BookingRows.RowsDrift` | packages/contracts/src/money/ledger-entries.ts:309-314 | a booking's rows are exact for the driver and within the drift bound for everyone else |
| `LedgerRecords.RecordOwes` | apps/api/src/domains/payment/commands/process-refund.command.ts:37-66 | each record's share of `refunds_payable`: what it decided, gave on top, gave back or opened, less what the gateway sent |
| `LedgerRecords.RecordPays` | packages/db/src/queries/partner-payable.ts:18-34 | each record's share of every side of `owner_payable`: what an owner or a partner earned by it, less what refunds took, transfers moved and payouts drew, plus what was taken back |
| `LedgerSteps.SettlementPosts` | apps/api/src/domains/payment/commands/process-refund.command.ts:45-63 | a settlement records and posts the gateway's amount, whatever was asked for, and touches no other record; a second one changes nothing |
| `LedgerMovements.TakeBackOwesPartner` | apps/worker/src/jobs/payment/reverse-transfer.job.ts:84-105 | what is taken back is owed to the partner again and no longer held, once for each refund that asked for it |
| `LedgerMovements.ClearingSettles` | apps/worker/src/jobs/payout/reconcile.job.ts:235-260 | a transfer that has arrived leaves clearing and what is held, once for each payment, whichever of its transfers it is |
| `LedgerCases.WashIsUndone` | apps/api/src/domains/carwash/commands/cancel-wash.command.ts:64-121 | a cancelled wash's rows are zero in every column, and exactly when it was captured the whole price is issued, with all the partner earned to be taken back |
| `LedgerRun.ReducedIsCallOutIff` | apps/api/src/domains/valet/commands/cancel-job.command.ts:83-109 | in every run a reduced leg, its refund sent, is a call-out in every column iff its distance was not less than half a metre past a whole kilometre |
| `LedgerMovements.ReductionGivesBack` | apps/api/src/domains/valet/commands/cancel-job.command.ts:83-109 | every charged outbound leg can be reduced, and what its stored distance costs beyond a call-out leaves each account and is owed to the driver |
| `LedgerMovements.LegIsCharged` | apps/api/src/domains/valet/commands/accept-job.command.ts:45-90 | a leg is filed with its fee and its exact distance, each part of the fee on its own account, the earnings on the partner's side |
| `LedgerMovements.WashIsCharged` | packages/contracts/src/money/ledger-entries.ts:499-510 | the same of a wash |
| `LedgerCases.OrphanIsRefunded` | apps/worker/src/jobs/payment/reconcile-orphan.job.ts:45-119 | an orphaned capture re-opens what is held and owed by the amount of the refund row it issues; a second report changes nothing |
| `LedgerMovements.OrphanAsksForAll` | apps/worker/src/jobs/payment/reconcile-orphan.job.ts:101-120 | its refund row asks for all that was captured, and to take all that was transferred back |
| `LedgerCases.CaptureReportedTwice` | apps/api/src/domains/payment/commands/confirm-payment.command.ts:122-144 | a second report of a live booking's capture refunds all of it iff the driver has checked in; the booking stands, and the owner's share is discharged again |
| `LedgerCases.OrphanedIsReleased` | apps/api/src/domains/payment/refund.service.ts:92-117 | cancelled after that, its rows are zero on every account and nothing is issued |
| `LedgerRun.EveryRunHolds` | packages/contracts/src/money/ledger-entries.ts:183-211 | in every run each stored posting balances, the ledger is exactly the records' rows, posting by posting and column by column, every record's rows are as its state says, and each booking has issued what it decided |
| `LedgerOutcomes.StepsByStatus` | apps/api/src/domains/booking/lifecycle.ts:42-61 | which steps are open to a booking in each status, and that no other is |
| `LedgerOutcomes.CreationOpens` | packages/contracts/src/money/ledger-entries.ts:101-113 | a new booking waits for its capture, with each part of its quote on its own account |
| `LedgerOutcomes.ExtensionAdds` | apps/api/src/domains/booking/commands/extend-booking.command.ts:66-95 | an extension adds each part of its quote to the booking and to its account, and captures nothing |
| `LedgerOutcomes.CaptureDischargesEarnings` | apps/api/src/domains/payment/order.service.ts:155-164 | a capture lowers what the owner is owed by exactly the earnings and files one transfer of them, or none when nothing was earned |
| `LedgerMovements.ReleaseClears` | apps/worker/src/jobs/booking/expire-unpaid.job.ts:40-80 | a booking that ends without a payment of its own takes every part of its price off its account |
| `LedgerRun.BookingRefundsAreIssued` | packages/db/migrations/0057_refunds_capped_at_capture.sql:10-25 | in every run each booking's own refund rows add up to what its postings decided, an orphan's to its capture, and together they stay within the capture |
| `LedgerCases.CancelPossibleIff` | packages/db/migrations/0057_refunds_capped_at_capture.sql:17-22 | a paid booking can be cancelled iff the refund is within its capture; by its owner or an admin, iff it was never extended at a charge |
| `LedgerOutcomes.CancellationRefunds` | apps/api/src/domains/payment/refund.service.ts:89-168 | for every clock time and canceller, a successful cancellation decides what the policy gives, asks for exactly that in one refund row, if anything, to be taken back of what the owner gave and no more than was transferred, and owes it and the goodwill |
| `LedgerOutcomes.CancellationMoves` | packages/contracts/src/money/ledger-entries.ts:258-294 | on every account: before the start or by somebody else all credits are given back and the rest of the price is kept; in the grace window fair shares are given; later nothing moves |
| `LedgerOutcomes.AdminRefundPossibleIff` | apps/api/src/domains/payment/refund-options.ts:15-94 | exactly which admin refunds succeed |
| `LedgerOutcomes.AdminRefundGives` | apps/api/src/domains/payment/commands/admin-refund.command.ts:71-112 | the amount is decided, asked for in one row with its take-back, owed to the driver, and given in fair shares |
| `LedgerCases.ExtensionBlocksCancellation` | apps/api/src/domains/booking/commands/extend-booking.command.ts:84-99 | after an extension worth anything no owner or admin cancellation goes through |
| `LedgerCases.ReversedAgainIff` | apps/api/src/domains/payment/refund-options.ts:29-56 | a booking that a cancellation reversed can be refunded by an admin as well iff the driver cancelled it before the start and it cost at most the flat fee |
| `LedgerCases.SecondReversal` | apps/api/src/domains/payment/refund.service.ts:119-137 | that refund takes the owner's earnings and the GST a second time, for every such booking |
| `LedgerRun.FiveRupeeBooking` | packages/contracts/src/money/refund-policy.ts:82-91 | a run that reaches such a booking: ₹5 at no surge |
| `LedgerRun.RefundsPayableIs` | apps/api/src/domains/payment/commands/process-refund.command.ts:26-35 | in every run `refunds_payable` is what bookings and orphaned captures issued, the goodwill and the valet reductions, less what the gateway sent for any refund |
| `LedgerRun.RefundsPayableIsWaitingIff` | apps/api/src/domains/payment/commands/process-refund.command.ts:26-35 | it equals the refunds waiting for the gateway iff goodwill, valet reductions and what the gateway kept back equal the washes' refunds |
| `LedgerCases.CapturedWashOverdraws` | apps/api/src/domains/carwash/commands/cancel-wash.command.ts:64-121 | cancelling a captured wash and refunding it leaves what is waiting as it was and `refunds_payable` in debit by the whole price more |
| `LedgerRun.WashIsCaptured` | apps/api/src/domains/payment/commands/confirm-payment.command.ts:83-120 | every price reaches a captured wash |
| `LedgerCases.LateCaptureIsKept` | apps/api/src/domains/payment/commands/confirm-payment.command.ts:83-120 | a cancelled wash's capture, late or reported again, is taken, issues nothing, discharges the partner's share, and cannot be cancelled any more |
| `LedgerRun.EveryRunDriftsWithin` | packages/contracts/src/money/ledger-entries.ts:304-314 | in every interleaving of events, a booking's rows stay within the drift bound and are all in the ledger |
| `LedgerRun.BalanceCheckFiresIff` | apps/api/src/domains/ledger/ledger.service.ts:29-31 | after any run the check refuses a step iff it books a price of zero, settles an amount that is not positive, or charges a service whose commission exceeds its price |
| `LedgerRun.LedgerIsAppendOnly` | packages/contracts/src/money/ledger-entries.ts:135-138 | a run only ever appends postings |
| `LedgerRun.PayableSideIs` | packages/db/src/queries/partner-payable.ts:18-34 | in every run each side of `owner_payable` is exactly what the records say its owner or partner earned, gave back, was transferred and was paid |
| `LedgerRun.PartnerBalanceIs` | packages/db/src/queries/partner-payable.ts:18-34 | the same of a partner's balance, owners' rows left out |
| `PartnerBalances.StepMovesBalance` | packages/db/src/queries/partner-payable.ts:18-34 | in every run each step moves each partner's balance by exactly what its event owes: nothing for a booking, earnings for a service whose partner is not the driver, what is reduced, discharged, undone or taken back of it, the whole for a payout |
| `PartnerBalances.BookingsPayNoPartner` | packages/db/src/queries/partner-payable.ts:10-23 | no step of a booking, from its creation to an orphaned capture, changes what anybody may be paid as a partner |
| `LedgerCases.PayoutClearsBalance` | apps/worker/src/jobs/payout/run-weekly.job.ts:85-125 | a payout brings its payee's balance to zero, leaves every other partner's, and is not repeated |
| `LedgerMovements.PayoutIsFiled` | apps/worker/src/jobs/payout/run-weekly.job.ts:85-112 | a balance of ₹100 or more is paid whole: withheld parts at their own rates, each part on its own account |
| `LedgerMovements.SmallBalanceIsKept` | apps/worker/src/jobs/payout/run-weekly.job.ts:91-91 | below that nothing happens |
| `LedgerMovements.ArrivalSettles` | apps/worker/src/jobs/payout/apply-status.job.ts:49-57 | a payout that has arrived leaves clearing where it found it |
| `LedgerMovements.PayoutStands` | packages/contracts/src/money/ledger-entries.ts:559-584 | what a payout holds on every account in each of its states |
| `LedgerCases.FailedPayoutRestores` | apps/worker/src/jobs/payout/fail.ts:33-49 | whatever was posted in between, a payout that fails, or comes back after it arrived, takes exactly what it did out of every account and every side, clearing included, and only once |
| `SurgeConfig.LadderAscends` | packages/contracts/src/admin/surge-config.ts:52-89 | neighbours ascending means both columns ascend throughout |
| `SurgeCalculator.TierForOccupancy` | packages/contracts/src/money/surge-calculator.ts:116-148 | the scanning loop returns the last tier reached, the floor for a zone without slots |
| `SurgeCalculator.SnapDownToTier` | packages/contracts/src/money/surge-calculator.ts:162-168 | the scanning loop returns the last tier at or below the value |
| `SurgeCalculator.CalculateSurge` | packages/contracts/src/money/surge-calculator.ts:59-111 | the imperative calculation computes the specified result, whose every field the rows below describe |
| `SurgeCalculator.BaseTierIsHighestReached` | packages/contracts/src/money/surge-calculator.ts:137-147 | on an ascending ladder the tiers at or below the result are exactly those whose threshold occupancy strictly exceeds |
| `SurgeCalculator.SnapIsGreatestBelow` | packages/contracts/src/money/surge-calculator.ts:150-168 | snapping finds the greatest ladder multiplier not above the value |
| `SurgeCalculator.OccupancyBpAgrees` | packages/contracts/src/money/surge-calculator.ts:54-57 | the rounded occupancy agrees with the exact tier choice, up to rounding |
| `SurgeCalculator.EscalationIsTheProduct` | packages/contracts/src/money/surge-calculator.ts:75-89 | three rounded modifiers stay within 3.5 basis points of the exact product of those whose flags are set |
| `SurgeCalculator.SurgeIsExplainable` | packages/contracts/src/money/surge-calculator.ts:91-111 | a ladder multiplier within the cap, a badge exactly above 1.0x, an acceptable snapshot, and a surge the quote accepts |
| `SurgeCalculator.ModifiersAreTheFlags` | packages/contracts/src/money/surge-calculator.ts:75-110 | above 1.0x the result lists exactly the modifiers whose flags are set, once each and in the order they are applied; at 1.0x none |
| `SurgeCalculator.OccupancyIsNearest` | packages/contracts/src/money/surge-calculator.ts:54-57 | the result states the unique nearest basis point to the exact occupancy, a half going up, and zero without slots |
| `SurgeCalculator.SurgeIsHighestAllowed` | packages/contracts/src/money/surge-calculator.ts:91-97 | the highest tier within both the escalated value and the cap |
| `SurgeCalculator.SurgeNeverBelowBase` | packages/contracts/src/money/surge-calculator.ts:93-103 | never below the tier the occupancy earned, unless the cap is |
| `SurgeCalculator.ModifiersNeverLiftTheFloor` | packages/contracts/src/money/surge-calculator.ts:66-73 | modifiers never create a surge |
| `SurgeCalculator.SurgeMonotone` | packages/contracts/src/money/surge-calculator.ts:59-111 | a fuller zone, as an exact fraction, with no fewer modifiers is never cheaper |
| `AdminSession.EveryRunHolds` | apps/admin/src/lib/session.ts:48-116 | one refresh at a time, held by the slot until it settles; at most one retry; signed in iff token and user; the cookie accounted for |
| `AdminSession.ReuseExactlyAfterLoss` | apps/admin/src/lib/session.ts:99-116 | a refresh presents a replaced cookie exactly when a granted answer was lost |
| `AdminSession.AnsweredRefreshesNeverReuse` | apps/admin/src/lib/session.ts:99-116 | while answers arrive, no interleaving trips reuse detection |
| `AdminSession.OneLostAnswerTripsReuse` | apps/admin/src/lib/session.ts:107-111 | a run in which one lost answer trips it |
| `AdminSession.AnswerIsFinal` | apps/admin/src/lib/session.ts:104-116 | a refresh's answer never changes once applied, so all joiners get the same |
| `AdminSession.JoinersTakeTheSharedAnswer` | apps/admin/src/lib/api.ts:102-104 | a waiting request resumes only after the slot is free, resends exactly on a grant, and otherwise signs out |
| `AdminSession.SessionIsLastWord` | apps/admin/src/lib/session.ts:61-86 | in every run the token, the user and the status are exactly those of the last answer applied, or nobody's after a failure or a sign-out |
| `AdminSession.GrantIsKeptAndSent` | apps/admin/src/lib/api.ts:89-103 | a granted token and user are held until another answer is applied or somebody signs out; every request sent meanwhile, resumed ones included, carries that token |
| `AdminSession.FailedRefreshSignsOut` | apps/admin/src/lib/session.ts:67-82 | a refresh that is denied, unreadable, lost or never sent leaves no token, no user and nobody signed in |
| `AdminSession.RunsAreShort` | apps/admin/src/lib/api.ts:102-104 | at most six steps per request and three per start-up: no run goes on for ever |
| `AdminSession.NoDeadlock` | apps/admin/src/lib/session.ts:104-116 | while a request is unfinished some step is enabled |
| `AdminClient.Client.SignedOut` | apps/admin/src/lib/session.ts:61-64 | clears token and user in place and nothing else |
| `AdminClient.Client.AcceptReply` | apps/admin/src/lib/session.ts:67-86 | in place, a grant with a readable user becomes the token, the user and the status; anything else signs out; and this is the model's `Accept` |
| `AdminClient.Client.JoinRefresh` | apps/admin/src/lib/session.ts:104-105 | joins the refresh in the slot or starts one with the browser's cookie |
| `AdminClient.Client.OnRefreshSettled` | apps/admin/src/lib/session.ts:112-114 | clears the slot and settles the promise |
| `AdminClient.Client.OnResponse` | apps/admin/src/lib/api.ts:102-104 | a first 401 waits on the refresh, a second signs out |
| `MobileRefresh.EveryRunHolds` | apps/mobile/src/lib/api.ts:55-107 | one refresh in flight, at most two sends, and the stored token is the server's unless a pair is on its way or was lost |
| `MobileRefresh.ReuseExactlyAfterLoss` | apps/mobile/src/lib/api.ts:57-86 | a replaced token is presented exactly when a granted pair was lost |
| `MobileRefresh.AnsweredRefreshesNeverReuse` | apps/mobile/src/lib/api.ts:57-86 | while answers arrive, no refresh presents a replaced token, sessions ended in between included |
| `MobileRefresh.FreedAfterStored` | apps/mobile/src/lib/api.ts:72-82 | when a granted refresh clears the slot, the device holds exactly the granted pair, the server's current one, or the session has ended; no grant is lost and nothing is outstanding |
| `MobileRefresh.ResultIsFinal` | apps/mobile/src/lib/api.ts:57-86 | a settled refresh never changes its result |
| `MobileRefresh.JoinersTakeTheSharedResult` | apps/mobile/src/lib/api.ts:93-105 | a waiting request takes the settled result of the refresh it joined: sent again with the session untouched, or done with the session ended |
| `MobileRefresh.DeviceHoldsLatestGrant` | apps/mobile/src/lib/api.ts:72-79 | in every run the device holds no other access token than the one the latest successful refresh stored |
| `MobileRefresh.RetrySendsItsGrant` | apps/mobile/src/lib/api.ts:97-99 | a request that waited on a refresh is sent again with the token granted to it, unless a later refresh stored another |
| `MobileRefresh.HeldTokenIsSent` | apps/mobile/src/lib/api.ts:36-40 | whatever is sent, first or again, carries the token the device holds at that time |
| `MobileRefresh.FailureEndsSessionIff` | apps/mobile/src/lib/api.ts:90-105 | which events of any run end the session, and that no other does |
| `MobileRefresh.ServerErrorEndsRefreshedSession` | apps/mobile/src/lib/api.ts:96-104 | a run whose refresh is granted and stored, whose retry then fails with a server error, and whose session is gone with nothing lost |
| `MobileRefresh.SessionSurvives` | apps/mobile/src/lib/api.ts:57-107 | whatever the interleaving, the session survives while refreshes succeed and no retried request fails |
| `MobileRefresh.RunsAreShort` | apps/mobile/src/lib/api.ts:55-107 | at most seven steps per request: no run goes on for ever |
| `MobileRefresh.NoDeadlock` | apps/mobile/src/lib/api.ts:57-107 | while a request is unfinished some step is enabled |
| `MobileClient.Client.JoinRefresh` | apps/mobile/src/lib/api.ts:57-58 | joins the refresh in flight or starts one |
| `MobileClient.Client.OnPair` | apps/mobile/src/lib/api.ts:72-79 | the new pair overwrites the stored one |
| `MobileClient.Client.OnError` | apps/mobile/src/lib/api.ts:90-105 | the interceptor's branches on status and on the retried flag |
| `Rating.WeightedAverageBp` | packages/contracts/src/primitives/rating.ts:45-60 | the accumulating loop computes the specified average, nothing for no reviews |
| `Rating.AverageIsMeanOfDoubled` | packages/contracts/src/primitives/rating.ts:39-60 | the average is the plain mean once recent reviews are listed twice |
| `Rating.OrderDoesNotMatter` | packages/contracts/src/primitives/rating.ts:45-60 | the same reviews in any order have the same average |
| `Rating.AverageIsBetween` | packages/contracts/src/primitives/rating.ts:45-60 | between the lowest and highest stars, rounding included |
| `Rating.NewReviewPullsTowardsItself` | packages/contracts/src/primitives/rating.ts:45-60 | one more review moves the rounded average towards its stars and never past them |
| `Rating.DisplayIsNearestTenth` | packages/contracts/src/primitives/rating.ts:63-65 | the display value is within half a step, order-preserving and idempotent |
| `Uuid.Generate` | packages/db/src/id.ts:4-28 | the buffers written in place print the specified identifier; a timestamp over 48 bits throws |
| `Uuid.LayoutIsVersion7` | packages/db/src/id.ts:12-27 | dashes, version 7 and the variant are in place for all random bytes (RFC 9562, sections 4.1 and 5.7) |
| `Uuid.TimestampRoundTrip` | packages/db/src/id.ts:5-15 | the first 48 bits decode back to the millisecond |
| `Uuid.UuidIsInjective` | packages/db/src/id.ts:9-27 | ids are equal exactly when the millisecond and all 74 free bits are |
| `Uuid.LaterSortsLater` | packages/db/src/id.ts:4-28 | ids of different milliseconds compare as text in time order |
| `PayoutSchedule.NextPayoutIsFirstMonday` | packages/contracts/src/money/payout-schedule.ts:13-20 | the first Monday, counted from 5 January 1970, whose 06:00 IST (00:30 UTC) is strictly ahead, at most seven days away |
| `PayoutSchedule.NextPayoutMonotone` | packages/contracts/src/money/payout-schedule.ts:13-20 | the date never moves backwards |
| `PayoutSchedule.RunInstantIsSpent` | packages/contracts/src/money/payout-schedule.ts:17-18 | at the instant of a run the next one is a week later, a millisecond before it is that day |
| `PayoutSchedule.AtOrAfterIff` | packages/contracts/src/money/payout-schedule.ts:11-20 | the answer is the first run at or after the instant iff the instant is not that of a run |

## Left out

- Floating point: a `Rate` as a binary fraction, `Math.round` on floating quotients, and the limits of converting between `BigInt` and `Number`.
- The integer and finiteness checks on arguments, because the model's amounts are integers and its distances real numbers.
- Zod as a library: only the predicates its schemas enforce are modelled; occupancy windows, peak windows and zone overrides are not.
- `draftsFromLedgerRows`: parsing of account and direction strings; a stored posting keeps its typed entries.
- Error message texts, and the distance fields a valet fee carries for display.
- The valet and the wash fee, and their postings, share one definition each here; the source writes the same expressions twice.
- The parsing of `effectiveFrom` dates: a row carries the instant of its midnight in IST.
- ISO formatting of payout dates (a date is a day number) and of stars.
- The database, queues, gateway and push calls; the job and booking tables, their transitions and idempotency keys.
- Booking statuses beyond waiting, confirmed, checked in, over, reversed and released; of valet and wash jobs, every status but charged, reduced and reversed.
- A second gateway order of the same booking; its stray capture would be refunded from a payment row of its own.
- The period of a payout, one for each payee and week, and the payees that Route settles instead; rates given to a payout are any dated histories.
- Discounted bookings in the ledger machine: nothing in the platform writes one yet.
- Network and server of the refresh protocol beyond answers, failures and lost answers: logout and sign-in racing a refresh, role switches, several browser tabs, and time-outs that the server nevertheless served in the mobile client other than a lost grant.
- Listeners of the admin session, and the decoding of token claims: a reply says whether a user could be read.
- In `MobileRefresh`, signing out clears the stored session at once, and the device's storage neither fails to read nor to write.

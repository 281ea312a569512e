# What the marketplace backend promises, proved

This project models the parts of the marketplace backend that are protocols or algorithms, and proves
what holds of them for every input, every history of calls and every interleaving:

- **Disputes.** An admin's ruling is planned, claimed, carried out by the payment provider and then
  recorded or rolled back, each by its own SQL statement. Any number of rulings, closes, review starts
  and responses run at once, two disputes may concern one payment, the provider may decline, and any
  call may stop between two statements. No payment moves twice, an amount on a row is that of a
  completed movement, closed stays closed, and a rollback undoes only its own ruling.
- **Bookings and jobs.** A booking request is checked without a lock and then again under the artisan's
  row lock, while other calls change bookings. No two live bookings of an artisan overlap and no
  customer passes the cap. A booking and its job never disagree, the history of a job is one unbroken
  chain, and a job is completed and its payment captured at most once.
- **Availability.** The free windows of a day are exactly what is left of the working hours, so the
  picker, the lock, the client's summary and the search filter agree.
- **Spending and earnings.** The buckets of a chart are gap-free, each payment falls in exactly one, and
  charts, breakdowns and totals hold the same money, read back from the printed strings.
- **State in memory.** The failure counter stays bounded and, while no 15 minutes see failures of more
  keys than it can hold, asks for a challenge exactly when three failures fall in one open window; a
  pending signup is a token that is used at most once.

## How it is written

| files | subject |
|---|---|
| `DisputeRows`, `DisputeMoney`, `DisputesService` | the dispute row, the money plan, the service methods run one at a time |
| `DisputeProtocol`, `DisputeSafety`, `DisputeRuns` | the same as interleaved steps, the invariant, and what follows for whole runs |
| `BookingRows`, `BookingCreation`, `BookingsService` | `create` under concurrency, and as one call |
| `JobRows`, `Market`, `MarketRuns`, `MarketService` | bookings, jobs and applications, one whole call after another |
| `JobTransactions` | the row-locked job transactions, interleaved |
| `Intervals`, `AvailabilitySummary`, `AvailabilityService` | free windows, time off, the summary, weekly hours |
| `Buckets`, `Calendar`, `CustomerRange` | buckets of any size, the Gregorian calendar, the report's periods |
| `Money`, `Totals`, `SpendService`, `SpendingReport`, `Breakdown`, `Channels`, `ReportBreakdowns`, `Earnings` | money, sums, the reports and the earnings chart |
| `LoginFailures`, `LoginFailureRuns` | the failure counter and its histories |
| `PendingSignup`, `PendingSignupRuns` | the signup store and its interleavings |
| `Seqs`, `Wrappers`, `PaymentRows` | lists, optional values, payment statuses |

Code that changes rows or fields is a class whose methods state the whole new state; its interleaved
form is a step system in which every SQL statement, or every stretch of code between two waits, is one
step. Both use the same functions for what a statement writes. Times are integers (milliseconds or
seconds), dates are day numbers, money is in pesewas. `dafny verify dfyconfig.toml` checks everything.

Where the code and its own words differ:

- The failure counter's comment speaks of 3 failures within 15 minutes. The code counts in windows that
  open at the first failure and do not slide. `WindowDoesNotSlide` gives a history with three failures
  in the last 15 minutes and no challenge; `ChallengeIffOpenWindow` says exactly when one is asked for, as long as
  no 15 minutes see failures of more than 50,000 keys; `OneKeyTooMany` shows that one key more can lose a
  challenge.
- The dispute service's comment says that a rollback restores what the ruling found. It restores the
  status captured when the ruling was loaded, so a review started between the load and the claim is
  undone. `ReviewCanBeLost` gives the run; `RollbackUndoesRuling` says exactly when nothing is lost.
- A weekly slot is meant to end after it starts. An update compares "HH:MM" from the request with
  "HH:MM:SS" from the table as strings, so moving the start onto the stored end passes and stores an
  empty slot (`UpdateSlot`). It offers no time (`EmptySlotOffersNothing`).
- The log line of an abandoned rollback speaks of an admin who resolved or closed the dispute meanwhile.
  Only a close can be the cause (`AbandonedIffClosed`).

## Model

| member | source | states |
|---|---|---|
| DisputeMoney.OptionsMatchPlan | src/disputes/disputes.service.ts:1444-1497 | in every state of the rows and the payment, the refund and release options shown to the admin, and their amounts, are what a ruling without a typed amount would do |
| DisputeMoney.PartialRefundFitsShown | src/disputes/disputes.service.ts:1369-1401 | a typed amount is refused exactly when it exceeds the balance shown, and when taken is the amount refunded and within what remains of the payment |
| DisputeMoney.PlanNeverSilent | src/disputes/disputes.service.ts:1255-1330 | a plan names the linked, unclaimed payment and an amount, or a reason for moving nothing; a refund only for the client's verdict |
| DisputeMoney.SiblingGuardAgrees | src/disputes/disputes.service.ts:1289-1303 | the query for a sibling's claim and the search among the loaded siblings find one in the same cases |
| DisputesService.Service.Raise | src/disputes/disputes.service.ts:149-195 | a dispute is filed, open and unruled, exactly when the booking exists, the user is a party of it, it is COMPLETED or CANCELLED, and this user has none on it; otherwise the first of these reasons is given and nothing is stored |
| DisputesService.Service.StartReview | src/disputes/disputes.service.ts:687-710 | only an OPEN dispute goes under review, and nothing else changes |
| DisputesService.Service.Respond | src/disputes/disputes.service.ts:333-390 | a response is written exactly when the other party writes the first one on open work, and only its three columns change |
| DisputesService.Service.Close | src/disputes/disputes.service.ts:1149-1168 | any dispute but a closed one is closed; verdict and money columns stay |
| DisputesService.Service.ClaimForRuling | src/disputes/disputes.service.ts:876-915 | exactly one of won, lost to another ruling, or payment claimed by another row; only a win writes, and it writes the verdict together with the claim on the payment |
| DisputesService.Service.MoveClaimedMoney | src/disputes/disputes.service.ts:925-1079 | moves the planned money once, or moves nothing and puts the row back if the ruling still stands on it; any other state is reported as settled meanwhile and left alone |
| DisputesService.Service.RecordMoneyResult | src/disputes/disputes.service.ts:1093-1125 | writes the movement, or NONE with both other columns cleared, to this row only; a refused write leaves the row as the claim left it |
| DisputesService.Service.CarryOut | src/disputes/disputes.service.ts:792-803 | steps 3 and 4 for the winner: the money moves and is recorded, or the row is put back exactly as the claim found it |
| DisputesService.Service.Resolve | src/disputes/disputes.service.ts:743-834 | run alone: which of its errors or results it gives and when; an error leaves the table and the ledger as they were; a success settles this row only and records exactly what moved, or, when the record is lost, leaves the claim without an amount |
| DisputeSafety.StepKeepsInv | src/disputes/disputes.service.ts:713-1125 | every step of every interleaving keeps the invariant that couples rows, rulings under way and completed movements |
| DisputeSafety.ClaimKeeps | src/disputes/disputes.service.ts:876-915 | the conditional claim keeps it, whoever won the row or the payment before |
| DisputeSafety.ProviderSucceedsKeeps | src/disputes/disputes.service.ts:940-957 | so does a completed movement |
| DisputeSafety.RecordKeeps | src/disputes/disputes.service.ts:1093-1125 | so does the record, written or lost, also on a dispute closed meanwhile |
| DisputeSafety.RollbackKeeps | src/disputes/disputes.service.ts:982-1014 | so does the conditional rollback |
| DisputeSafety.CloseKeeps | src/disputes/disputes.service.ts:1149-1168 | so does a close laid over a ruling under way |
| DisputeRuns.Reachable | src/disputes/disputes.service.ts:713-1125 | the invariant holds in every state of every run |
| DisputeRuns.NoPaymentMovesTwice | src/disputes/disputes.service.ts:837-915 | in every state of every run, each payment has at most one completed movement |
| DisputeRuns.AmountMeansMoved | src/disputes/disputes.service.ts:1081-1125 | an amount on a row is exactly the amount, action and payment of a completed movement of that dispute, the only one of that payment |
| DisputeRuns.MovementLeavesClaim | src/disputes/disputes.service.ts:865-868 | every completed movement has its claim on a settled row, even when its record was lost |
| DisputeRuns.RecordNeverConflicts | src/disputes/disputes.service.ts:1081-1125 | the record of a movement never violates the unique index |
| DisputeRuns.StepOnSettled | src/disputes/disputes.service.ts:876-1079 | what one step may do to a settled row: leave its verdict, close it, or undo the very ruling whose verdict and admin are on it; never touch its response |
| DisputeRuns.ClosedForEver | src/disputes/disputes.service.ts:998-1027 | once closed, status, verdict, notes and resolver never change again |
| DisputeRuns.ReopenedByOwnRollback | src/disputes/disputes.service.ts:999-1014 | a settled dispute is open work later only through the rollback of the very ruling that was on it: the row carried its admin, outcome and resolution, its claim had won the row, and the row had been settled ever since |
| DisputeRuns.RollbackHasClaim | src/disputes/disputes.service.ts:876-1014 | a rollback that undoes a ruling has the claim that put it there, and the dispute was settled at every moment in between |
| DisputeRuns.RespondedOnce | src/disputes/disputes.service.ts:349-361 | a response, once there, is never changed or removed |
| DisputeRuns.ResponseOnlyFromRespond | src/disputes/disputes.service.ts:333-370 | a response appears only by a response step of the other of the two parties, on open work, and that step changes nothing else of the row |
| DisputeRuns.PartiesHold | src/disputes/disputes.service.ts:149-183 | in every state, each dispute was raised by a party of its booking |
| DisputeRuns.AlwaysRemembers | src/disputes/disputes.service.ts:752-803 | a ruling always carries the columns as it loaded them, won the row as the claim found it, and has held it ever since |
| DisputeRuns.RollbackUndoesRuling | src/disputes/disputes.service.ts:982-1014 | a rollback puts back the row the claim found but for the status read at the load; so it leaves no trace if and only if the status was the same at both times |
| DisputeRuns.AbandonedIffClosed | src/disputes/disputes.service.ts:1011-1041 | a rollback finds nothing to undo exactly when the dispute was closed, and then no money moved |
| DisputeRuns.AbandonedClaimBlocks | src/disputes/disputes.service.ts:1016-1027 | a claim left on a closed dispute without a movement blocks its payment for ever |
| DisputeRuns.CountsAddUp | src/disputes/disputes.service.ts:517-578 | for any filing window, resolved and open disputes are disjoint and together the filed ones, and the overdue are open |
| DisputeRuns.OpenWorkIsClean | src/disputes/disputes.service.ts:962-998 | a dispute is OPEN or UNDER_REVIEW if and only if it has no resolved time, and then carries nothing of any ruling |
| DisputeRuns.ReviewCanBeLost | src/disputes/disputes.service.ts:752-758 | a run in which a review started between load and claim is undone by the rollback |
| BookingCreation.DefaultEnd | src/bookings/bookings.service.ts:1052-1059 | the default end stays on the day, is the start plus the duration when that fits, and is after the start except for a start in the last minute |
| BookingCreation.StepKeepsInv | src/bookings/bookings.service.ts:217-331 | every step of every interleaving keeps bookings apart, the cap, and what each open transaction has seen |
| BookingCreation.InsertKeeps | src/bookings/bookings.service.ts:310-331 | the insert keeps all of it, because only the holder of the artisan's lock adds bookings |
| BookingCreation.TransitionKeeps | src/bookings/bookings.service.ts:807-836 | no status change takes a slot or a place under the cap |
| BookingCreation.NoDoubleBooking | src/bookings/bookings.service.ts:234-287 | in every state of every run, two PENDING or CONFIRMED bookings of one artisan on one date do not overlap |
| BookingCreation.CapNeverExceeded | src/bookings/bookings.service.ts:289-308 | in every state of every run, no customer has more than three PENDING bookings with one artisan |
| BookingCreation.RefusedOnlyAfterChange | src/bookings/bookings.service.ts:210-287 | a request the picker let through meets an overlap under the lock only when a booking of that artisan and day changed in between |
| BookingsService.Service.Create | src/bookings/bookings.service.ts:189-332 | run alone: refused for the end, the picker or the cap, in that order, and otherwise stored as PENDING; the check under the lock never refuses what the picker let through |
| BookingCreation.InsertFits | src/bookings/bookings.service.ts:269-331 | what passes the overlap query and the count is safe to insert |
| JobRows.TransitionChains | src/jobs/jobs.service.ts:1383-1402 | a permitted transition extends the history chain |
| JobRows.EndsOnce | src/jobs/jobs.service.ts:1383-1434 | the step into a final status is the last of its history |
| MarketRuns.CallKeeps | src/bookings/bookings.service.ts:374-836 | every call, whatever its arguments and the provider's answer, keeps bookings, jobs, applications and histories consistent |
| MarketRuns.BookingAndJobAgree | src/jobs/jobs.service.ts:1404-1420 | after any calls, a booking and its job have matching statuses, there is one job where one is due and never two |
| MarketRuns.BookedJobNeverOpen | src/bookings/bookings.service.ts:447-510 | a job made from a booking is never OPEN or EXPIRED and nobody's application waits on it |
| MarketRuns.HistoryIsAChain | src/jobs/jobs.service.ts:1376-1434 | after any calls, a job's history is one unbroken chain from its creation to its status, with at most one end |
| MarketRuns.HistoryOnlyGrows | src/jobs/jobs.service.ts:1422-1434 | no call rewrites a history row, and a finished job is left alone |
| MarketRuns.OneAcceptance | src/jobs/jobs.service.ts:647-725 | a job takes at most one applicant, who is the artisan it was accepted for |
| MarketService.Service.ConfirmBooking | src/bookings/bookings.service.ts:374-522 | confirms a PENDING booking of the artisan exactly when there is an undisputed price and a service, and makes exactly one new job, with its history row and payment; no other row changes |
| MarketService.Service.DeclineBooking | src/bookings/bookings.service.ts:537-553 | declines exactly a PENDING booking of the artisan; nothing but its status changes |
| MarketService.Service.ExpireOneBooking | src/bookings/bookings.service.ts:813-836 | expires exactly a PENDING booking; nothing but its status changes, and otherwise nothing at all |
| MarketService.Service.FlagBookingNoShow | src/bookings/bookings.service.ts:723-766 | flags exactly an ended CONFIRMED booking of a party; nothing but its status changes, the job included |
| MarketService.Service.CancelOneBooking | src/bookings/bookings.service.ts:577-638 | cancels booking and not yet started job together, unless the refund is refused |
| MarketService.Service.CompleteOneBooking | src/bookings/bookings.service.ts:654-710 | completes booking and job together; a paid job by its own rules |
| MarketService.Service.ConfirmJobCompletion | src/jobs/jobs.service.ts:885-924 | completes a job whose artisan asked for it, and its confirmed booking |
| MarketService.Service.AutoCompleteOneJob | src/jobs/jobs.service.ts:1182-1220 | does the same for the system once 48 hours have passed |
| MarketService.Service.CancelOneJob | src/jobs/jobs.service.ts:990-1060 | cancels a cancellable job, its confirmed booking and the waiting applications |
| MarketService.Service.PostOneJob | src/jobs/jobs.service.ts:190-216 | exactly one new job, OPEN, unpaid and unbooked, with its first history row; no other row changes |
| MarketService.Service.Apply | src/jobs/jobs.service.ts:555-583 | exactly one new waiting application, on an OPEN job this artisan has none on; no other row changes |
| MarketService.Service.AcceptApplication | src/jobs/jobs.service.ts:647-725 | accepts one waiting application, rejects the others and moves the job, or changes nothing |
| MarketService.Service.Start | src/jobs/jobs.service.ts:768-791 | exactly the accepted artisan starts a PENDING job once its payment is secured: one move, one more history row, nothing else |
| MarketService.Service.RequestJobCompletion | src/jobs/jobs.service.ts:818-836 | exactly the accepted artisan of a started job asks once: the time is set, status and history stay, no other row changes |
| MarketService.Service.ExpireOneJob | src/jobs/jobs.service.ts:1105-1127 | expires an OPEN job and rejects the waiting applications |
| MarketService.AcceptThenReject | src/jobs/jobs.service.ts:695-709 | accepting first and rejecting the others after gives the same rows as the other order |
| JobTransactions.StepKeepsInv | src/jobs/jobs.service.ts:885-1247 | every step of the interleaved transactions keeps the row lock exclusive and what was checked under it true |
| JobTransactions.EndedOnce | src/jobs/jobs.service.ts:885-1078 | a job is completed at most once, and never both completed and cancelled |
| JobTransactions.CapturedOnce | src/jobs/jobs.service.ts:927-944 | its capture is triggered at most once, by the transaction that completed it |
| JobTransactions.FinishedStays | src/jobs/jobs.service.ts:885-1247 | a finished job is never touched again by any of the transactions |
| Intervals.SubtractOccupied | src/availability/availability-summary.ts:125-147 | the cursor loop computes the free windows |
| Intervals.FreeExactly | src/availability/availability-summary.ts:120-147 | a stretch fits one free window if and only if it lies in the working hours and overlaps no occupied interval, for intervals in any order, nested or empty |
| Intervals.InstantFree | src/availability/availability-summary.ts:120-147 | an instant is in a free window if and only if it is a working instant that no interval contains |
| Intervals.FreeWindowsOrdered | src/availability/availability-summary.ts:125-147 | the windows are non-empty, in order, disjoint and inside the hours, and never touch when every interval takes time |
| AvailabilitySummary.TimeOffUntil | src/availability/availability-summary.ts:152-174 | terminates with the last day of the maximal covered run, or nothing exactly when the day is not covered |
| AvailabilitySummary.Furthest | src/availability/availability-summary.ts:163-170 | one pass finds the furthest end of a block at the day reached or the next |
| AvailabilitySummary.TimeOffEndIsUnique | src/availability/availability-summary.ts:156-174 | that day does not depend on the order of the blocks |
| AvailabilitySummary.OpenInstants | src/availability/availability-summary.ts:203-208 | the open windows of a date hold exactly its free working instants |
| AvailabilitySummary.FirstBookableDate | src/availability/availability-summary.ts:200-214 | the loop finds the least date of the horizon with a free working instant still ahead and no time off, or none exactly when there is none |
| AvailabilitySummary.SummariseAvailability | src/availability/availability-summary.ts:176-244 | each state and each field, if and only if what it says is true; today's hours are those of the weekday, in order |
| AvailabilitySummary.NextAfterTimeOff | src/availability/availability-summary.ts:194-214 | the next available date lies after the time off that covers today |
| AvailabilitySummary.DateWithinWeekIsFound | src/artisans/artisans.service.ts:542-566 | an available artisan whose next date is within seven days is found by the THIS_WEEK filter |
| AvailabilitySummary.NowShowsAvailableToday | src/artisans/artisans.service.ts:513-541 | an artisan the NOW filter finds, with nothing booked today, is shown as available today |
| AvailabilityService.Calendar.AddSlot | src/availability/availability.service.ts:188-208 | adds a slot exactly when it takes time and overlaps no other of that weekday, and keeps all slots apart |
| AvailabilityService.Calendar.UpdateSlot | src/availability/availability.service.ts:221-248 | changes a slot exactly when the times pass the comparison of strings and overlap no other slot, and keeps all slots apart; the comparison lets a new start equal the stored end |
| AvailabilityService.Calendar.RemoveSlot | src/availability/availability.service.ts:250-258 | removes one slot and keeps the others |
| AvailabilityService.Calendar.ComputeBookableWindows | src/availability/availability.service.ts:394-435 | a request fits one returned window if and only if it lies in one active slot of that weekday, on a day without time off, and overlaps no live booking; the windows are in order and disjoint |
| AvailabilityService.WindowsAreRequests | src/bookings/bookings.service.ts:217-232 | the picker's test and the write side's conditions accept the same requests |
| AvailabilityService.DaySlotsApart | src/availability/availability.service.ts:508-533 | the slots of a day that take time come one after the other |
| AvailabilityService.EmptySlotOffersNothing | src/availability/availability-summary.ts:125-147 | a slot that ends when it starts yields no window |
| AvailabilityService.LoadingLosesNothing | src/availability/availability.service.ts:108-134 | leaving out past time off and bookings outside the horizon changes nothing of the summary |
| AvailabilityService.DescribeForClients | src/availability/availability.service.ts:97-158 | the map holds exactly the listed artisans, each with the summary of all stored rows |
| Buckets.BucketIsInterval | src/customer-insights/spend.util.ts:177-199 | truncating dates cuts time into adjacent stretches, each from its start to the next |
| Buckets.InOneBucket | src/customer-insights/customer-range.ts:66-78 | each date of the listed range falls in exactly one listed bucket |
| Buckets.BucketsBetween | src/customer-insights/customer-range.ts:67-78 | the cursor loop lists every start from the first bucket to the last, none missing or repeated |
| Buckets.LastOnes | src/customer-insights/customer-range.ts:124-134 | the list that reaches n - 1 buckets back has exactly n, each at its place |
| Calendar.IsoWeekIsBucket | src/customer-insights/customer-range.ts:49-54 | the computed week start is the Monday of the week that holds the date (ISO 8601:2004 section 3.2.2) |
| Calendar.MonthIsBucket | src/customer-insights/customer-range.ts:42-47 | the computed month start is the start of the month that holds the date |
| Calendar.FirstOfMonthIsGregorian | src/customer-insights/customer-range.ts:42-47 | counting months one by one gives the closed day count of the Gregorian calendar (ISO 8601:2004 section 3.2.1) |
| CustomerRange.WeekBuckets | src/customer-insights/customer-range.ts:107-114 | the seven-day cursor lists every Monday from the week of the first date to today |
| CustomerRange.MonthBucketsBetween | src/customer-insights/customer-range.ts:66-78 | lists every first of a month from the first date's month to the last's |
| CustomerRange.LastThirtyDays | src/customer-insights/customer-range.ts:91-104 | 30 daily buckets ending today, and the 30 days before |
| CustomerRange.LastNinetyDays | src/customer-insights/customer-range.ts:105-123 | the weeks of the last 90 days, and the 90 days before |
| CustomerRange.LastTwelveMonths | src/customer-insights/customer-range.ts:124-134 | exactly the last twelve months, and the twelve before |
| CustomerRange.ResolveCustomerWindow | src/customer-insights/customer-range.ts:80-146 | for each range the window, all its buckets without gaps, and a previous period that ends where it begins |
| Money.NumeralRoundTrip | src/customer-insights/spend.util.ts:58-64 | a printed whole number reads back |
| Money.MoneyRoundTrip | src/customer-insights/spend.util.ts:46-64 | any amount, positive or negative, printed with two decimals reads back as itself |
| Money.RoundIsNearest | src/customer-insights/spend.util.ts:71-75 | rounding is off by at most a half |
| Money.SharesAddUp | src/customer-insights/spend.util.ts:71-75 | n shares of a positive total come to 1000 thousandths, give or take n halves |
| Totals.Regroup | src/customer-insights/spend.util.ts:177-199 | sums per bucket over distinct buckets that cover all keys add up to the sum |
| SpendService.HitIsSum | src/customer-insights/spend.util.ts:173-199 | what is read for a bucket is the net and the number of its counted payments, zero where there is none |
| SpendService.SpansJoin | src/customer-insights/spend.util.ts:119-141 | a half-open span and the closed span that starts where it ends take each payment of both exactly once |
| SpendService.NetIsDifference | src/customer-insights/spend.util.ts:201-231 | net is gross less refunded, payment by payment and in total |
| SpendingReport.SeriesConserves | src/customer-insights/customer-analytics.service.ts:289-296 | the printed series, read back, holds the net and the number of the counted payments |
| SpendingReport.PreviousMeets | src/customer-insights/customer-analytics.service.ts:249-255 | previous and current period are adjacent and disjoint: together they hold the net of their union |
| SpendingReport.ReportConserves | src/customer-insights/customer-analytics.service.ts:263-296 | the series of every range, all time included, sums to the totals |
| SpendingReport.Build | src/customer-insights/customer-analytics.service.ts:225-310 | every printed figure reads back as the one summed; series and totals agree in money and count; the average is the nearest; the previous period adjoins |
| SpendingReport.OverviewIsTail | src/customer-insights/customer-overview.service.ts:347-370 | the six months of the overview, this month, last month and the amount held are those of a twelve-month report |
| SpendingReport.BothPages | src/customer-insights/customer-overview.service.ts:347-370 | computed from the same payments for any customer at any time, the report of twelve months and the overview agree in all of these |
| SpendingReport.SameHit | src/customer-insights/customer-overview.service.ts:347-361 | a longer window changes nothing in a bucket that starts inside the shorter one |
| Breakdown.MapCategories | src/customer-insights/customer-analytics.service.ts:110-141 | the rows are divided into the six that come first by amount and name, in order, and a rest folded into "Other"; money and counts are conserved as printed, and shares add up |
| Breakdown.FoldedKeeps | src/customer-insights/customer-analytics.service.ts:124-133 | folding the tail of the sorted list into one line keeps both sums |
| Channels.GroupNamesAreFixed | src/customer-insights/spend.util.ts:80-92 | the names of the groups fold to themselves |
| Channels.CollectGroups | src/customer-insights/customer-analytics.service.ts:178-185 | the loop leaves one entry for each group that has a row, with its money and count |
| Channels.MapChannels | src/customer-insights/customer-analytics.service.ts:173-194 | those entries, largest first; money and counts are conserved as printed, and shares add up |
| ReportBreakdowns.GroupsAddUp | src/customer-insights/customer-analytics.service.ts:312-358 | rows that group the counted payments hold the totals of the report |
| ReportBreakdowns.Breakdowns | src/customer-insights/customer-analytics.service.ts:225-310 | categories and channels of one report hold the same money and count as its totals |
| Earnings.FillEarningsSeries | src/analytics/artisan-analytics.service.ts:41-80 | the chart lists every bucket from the first to today's once and in order; distinct points on bucket starts inside the window keep their total payouts and money |
| Earnings.FillConserves | src/analytics/artisan-analytics.service.ts:72-79 | filling empty buckets with zero changes neither total |
| Earnings.DayBuckets | src/analytics/artisan-analytics.service.ts:63-71 | the daily cursor lists every day |
| LoginFailures.LoginFailureTracker.ReadKey | src/auth/login-failure-tracker.service.ts:44-53 | returns the live count, and forgets an expired entry |
| LoginFailures.LoginFailureTracker.BumpKey | src/auth/login-failure-tracker.service.ts:55-70 | counts one failure, opening a window and making room where needed |
| LoginFailures.LoginFailureTracker.RequiresChallenge | src/auth/login-failure-tracker.service.ts:72-83 | true exactly when the address or the client has reached the threshold |
| LoginFailures.LoginFailureTracker.RecordFailure | src/auth/login-failure-tracker.service.ts:85-92 | one failure of the address and, if there is one, of the client |
| LoginFailures.LoginFailureTracker.RecordSuccess | src/auth/login-failure-tracker.service.ts:94-96 | forgets the address only |
| LoginFailureRuns.NeverOverfull | src/auth/login-failure-tracker.service.ts:55-70 | after any history, whatever the clock does, one entry a key and at most 50,000 |
| LoginFailureRuns.OldestFirst | src/auth/login-failure-tracker.service.ts:55-70 | under a clock that never goes back, entries stand in the order of their windows, each dated by a logged failure of its key |
| LoginFailureRuns.EvictionTakesOldest | src/auth/login-failure-tracker.service.ts:59-65 | a failure forgets another key only when the map is full, and then only the one with the oldest window |
| LoginFailureRuns.ChallengeIsDeserved | src/auth/login-failure-tracker.service.ts:72-83 | a challenge implies at least three logged failures of that address or that client in the last 15 minutes |
| LoginFailureRuns.SuccessSparesClients | src/auth/login-failure-tracker.service.ts:94-96 | a success clears the address and changes no client's count |
| LoginFailureRuns.WindowGrows | src/auth/login-failure-tracker.service.ts:44-70 | one more failure joins the last window or opens the next |
| LoginFailureRuns.CountIsOpenWindow | src/auth/login-failure-tracker.service.ts:44-70 | while no 15 minutes see failures of more than 50,000 keys, a count is the number of failures in the key's last window while that is open, however many keys failed in all and whatever was evicted |
| LoginFailureRuns.ChallengeIffOpenWindow | src/auth/login-failure-tracker.service.ts:72-83 | under the same bound, a challenge is asked for if and only if three failures fall in one open window |
| LoginFailureRuns.EvictedIsClosed | src/auth/login-failure-tracker.service.ts:55-70 | under that bound, what a full map forgets is a window that is closed |
| LoginFailureRuns.OneKeyTooMany | src/auth/login-failure-tracker.service.ts:59-65 | with 50,001 keys in one window, three failures just now ask for no challenge, so the bound cannot be raised |
| LoginFailureRuns.WindowDoesNotSlide | src/auth/login-failure-tracker.service.ts:14-18 | a history with three failures in the last 15 minutes and no challenge |
| PendingSignup.PendingSocialSignupService.CleanupExpired | src/auth/pending-social-signup.service.ts:92-96 | removes exactly the expired entries |
| PendingSignup.PendingSocialSignupService.Create | src/auth/pending-social-signup.service.ts:42-48 | stores the signup with the present time, after a sweep |
| PendingSignup.PendingSocialSignupService.Peek | src/auth/pending-social-signup.service.ts:51-60 | finds exactly the live entry, and drops an expired one |
| PendingSignup.PendingSocialSignupService.Take | src/auth/pending-social-signup.service.ts:62-70 | finds the live entry and leaves none |
| PendingSignup.PendingSocialSignupService.Restore | src/auth/pending-social-signup.service.ts:72-81 | puts back an entry that has not expired, as it was |
| PendingSignup.PendingSocialSignupService.Discard | src/auth/pending-social-signup.service.ts:83-86 | removes the entry if present |
| PendingSignup.CompleteSocialSignup | src/auth/auth.service.ts:1279-1341 | run alone: which outcome when; a mistake the user can correct leaves the signup in place unless it has expired, and only success or a registered address uses it up |
| PendingSignupRuns.TokensNeverGrow | src/auth/auth.service.ts:1279-1341 | no step of any interleaving makes a second token of a key |
| PendingSignupRuns.TokenIsLinear | src/auth/pending-social-signup.service.ts:62-81 | in every state, a key is in the store, held by one completion, or turned into one account: at most one of these |
| PendingSignupRuns.SpentForEver | src/auth/auth.service.ts:1305-1328 | once an account was made, no completion ever holds or finds that key again |
| PendingSignupRuns.TakenInTime | src/auth/pending-social-signup.service.ts:72-90 | however often restored, a signup is taken only within 15 minutes of the step that first stored it, unchanged |
| PendingSignupRuns.SeenInTime | src/auth/pending-social-signup.service.ts:50-60 | the same bound for every look that finds it |
| PendingSignupRuns.AccountsAreFaithful | src/auth/auth.service.ts:1318-1328 | an account carries the signup first stored under its key |
| PendingSignupRuns.RetryWorks | src/auth/auth.service.ts:1318-1328 | after a failed registration the signup can be taken again, exactly until it expires |

## Left out

- The payment provider and the payment tables' own service: a payment call succeeds, or fails and moves nothing; what it writes to a payment row is an arbitrary change that keeps the row's id and the artisan's amount, which is fixed when the payment is made.
- Whole-row saves of stale reads when calls interleave (`decline`, `flagNoShow`, `startJob`, `requestCompletion`, `acceptApplication`, `sendReminder`): in `BookingCreation` a status change is one guarded step, in `MarketRuns` each call is one atomic step, and `JobTransactions` holds the row-locked transactions only.
- The refund that `cancelJob` makes before it takes the row lock: whether a payment is refunded if and only if its job is cancelled is not stated under interleaving.
- JobTransactions.CapturedOnce: says how often a capture is triggered, not whether it succeeds; a failed capture is left to the retry route, which is not part of this model.
- BookingsService.Service.Create: past dates, the price tolerance, the chosen slot's existence, suspended artisans and hidden or foreign services are guards that only refuse, and are not modelled.
- A PENDING booking that already has a job: no reachable state has one, so the branch of `confirm` that keeps such a job is modelled but never taken.
- `cancelJob` sets the payment intent of the job to `undefined`, which the object mapper does not write; the model therefore keeps the intent on the row, as the database does.
- Job updates, soft deletion, attachments, and who may see a job.
- The race of two slot changes of one artisan: `addSlot` and `updateSlot` check and write in two statements, modelled as one call.
- AvailabilityService.DescribeForClients: the summary only; the weekly hours and the first of the upcoming time off, copied beside it for display, are left out.
- SpendingReport.Build: `byArtisan` and `largestPayment` are left out; categories and channels are in `ReportBreakdowns`.
- Clock strings: times are seconds from midnight, and a string that is not a clock time does not occur.
- Floating point: sums, shares and averages are exact integers and fractions, so a share whose decimal form is an exact tie may be rounded the other way by the program.
- Locale order of names (code points are compared), letters outside A to Z in a channel name, digits other than 0 to 9, and exponents in money strings.
- Years below 100 in `Date.UTC`, and dates outside four-digit years.
- The queries of one report are taken from one snapshot of the payments; the caches are left out.
- LoginFailureRuns.ChallengeIffOpenWindow: says nothing of a key whose open window was evicted in a 15 minutes with failures of more than 50,000 keys; then `EvictionTakesOldest` and `ChallengeIsDeserved` still hold.
- The digest that stands for an address, and its normalisation: the model's address is the normalised one, and two addresses never share a digest.
- The random key of a pending signup is one never used before; an error thrown by the check for a registered address is taken as a refusal, since the signup is lost in both cases.
- Notifications, audit rows, log lines, messages, controllers, guards and the wording of reasons (`describeSiblingMoneyClaim`, `describeRuling`).
